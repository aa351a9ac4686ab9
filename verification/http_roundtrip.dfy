/** Decoding inverts encoding: every response within the limits, however framed, is read back whole. */
module HttpRoundTrip {
  import opened Errors
  import opened Https
  import opened HttpMessages

  // ----- Numbers -----

  lemma {:induction false} HexReads(s: string)
    requires (forall i | 0 <= i < |s| :: IsHexDigit(s[i])) && HexValue(s) <= BODY_LIMIT
    ensures HexNumber(s) == Value(HexValue(s))
    decreases |s|
  {
    if s != "" {
      HexReads(s[..|s| - 1]);
    }
  }

  lemma {:induction false} DecimalReads(s: string)
    requires (forall i | 0 <= i < |s| :: IsDigit(s[i])) && DecimalValue(s) <= BODY_LIMIT
    ensures DecimalNumber(s) == Value(DecimalValue(s))
    decreases |s|
  {
    if s != "" {
      DecimalReads(s[..|s| - 1]);
    }
  }

  /** Feeding on from a state already known. */
  lemma FeedThen(d: Decoder, a: string, b: string, e: Decoder)
    requires d.Feed(a) == e
    ensures d.Feed(a + b) == e.Feed(b)
  {
    FeedCat(d, a, b);
  }

  lemma Joins(a: string, b: string, c: string)
    ensures (a + b) + c == a + (b + c) && "" + a == a && a + "" == a
  {
  }

  lemma TakeOne(w: string, n: nat)
    requires n < |w|
    ensures w[..n + 1] == w[..n] + [w[n]]
  {
  }

  // ----- The head -----

  lemma StatusParts(name: string, a: char, b: char, c: char, d: char, e: char, reason: string)
    requires |name| == 7
    ensures var s := name + [a, b, c, d, e] + reason;
            && |s| == 12 + |reason| && s[..9] == name + [a, b] && s[9] == c && s[10] == d && s[11] == e
            && (reason != "" ==> s[12] == reason[0])
  {
  }

  lemma StatusDigits(n: nat)
    requires 200 <= n <= 599
    ensures n == n / 100 * 100 + n / 10 % 10 * 10 + n % 10 && n / 100 < 10
    ensures IsDigit(Digit(n / 100)) && IsDigit(Digit(n / 10 % 10)) && IsDigit(Digit(n % 10))
  {
  }

  lemma StatusReads(d: Decoder, m: Message)
    requires m.Valid()
    ensures d.StatusLine(m.StatusText()) == d.(head := d.head.(status := m.status), phase := Headers)
  {
    var n := m.status;
    StatusDigits(n);
    StatusParts("HTTP/1.", m.minor, ' ', Digit(n / 100), Digit(n / 10 % 10), Digit(n % 10), m.reason);
  }

  /** In the head or the trailers, with a number of header bytes used. */
  predicate Ready(d: Decoder, phase: Phase, used: nat) { AtLine(d) && d.phase == phase && d.headerBytes == used }

  lemma FieldLineIs(d: Decoder, f: FieldLine)
    requires (d.phase == Headers || d.phase == Trailers) && d.line == f.Text() && f.Valid()
    ensures d.Line() == if d.phase == Trailers then d else d.Field(LowerAll(f.name), f.value)
  {
    FieldIs(d, f);
  }

  lemma PlainField(d: Decoder, f: FieldLine)
    requires f.Plain(d.head.retry)
    ensures d.Field(LowerAll(f.name), f.value) == d.(head := d.head.(retry := f.Retry(d.head.retry)))
  {
  }

  /** The decoder after a line of `n` bytes that made it `e`. */
  lemma LineReads(d: Decoder, text: string, e: Decoder)
    requires AtLine(d) && LineText(text) && d.headerBytes + |text + CRLF| <= HEADER_LIMIT
    requires e.error == NoError && d.(line := text, headerBytes := d.headerBytes + |text + CRLF|).Gives(e)
    ensures d.Feed(text + CRLF) == e.(line := "")
  {
    FeedLine(d, text, e);
  }

  /** One field line that does not frame the body. */
  lemma FieldReads(d: Decoder, f: FieldLine)
    requires AtLine(d) && d.phase == Headers && f.Plain(d.head.retry)
    requires d.headerBytes + |f.Text() + CRLF| <= HEADER_LIMIT
    ensures d.Feed(f.Text() + CRLF)
            == d.(headerBytes := d.headerBytes + |f.Text() + CRLF|, head := d.head.(retry := f.Retry(d.head.retry)))
  {
    var text := f.Text();
    var e := d.(line := text, headerBytes := d.headerBytes + |text + CRLF|);
    FieldLineIs(e, f);
    PlainField(e, f);
    LineReads(d, text, e.(head := d.head.(retry := f.Retry(d.head.retry))));
  }

  lemma {:induction false} FieldsRead(d: Decoder, fs: seq<FieldLine>)
    requires AtLine(d) && d.phase == Headers && AllPlain(fs, d.head.retry)
    requires d.headerBytes + |Lines(fs)| <= HEADER_LIMIT
    ensures d.Feed(Lines(fs))
            == d.(headerBytes := d.headerBytes + |Lines(fs)|, head := d.head.(retry := RetryAfter(fs, d.head.retry)))
    decreases |fs|
  {
    if fs == [] {
      assert d.Feed("") == d;
    } else {
      var init, f := fs[..|fs| - 1], fs[|fs| - 1];
      FieldsRead(d, init);
      FeedCat(d, Lines(init), f.Text() + CRLF);
      FieldReads(d.Feed(Lines(init)), f);
    }
  }

  /** What the framing field leaves in the head. */
  function Framed(d: Decoder, f: Framing): Decoder {
    match f
    case Length(_, content) => d.(remaining := |content|, head := d.head.(hasLength := true))
    case Chunked(_, _, _, _, _) => d.(head := d.head.(chunked := true))
    case UntilClose(_) => d
  }

  lemma FramingField(d: Decoder, f: Framing)
    requires f.Valid() && !d.head.hasLength && !d.head.chunked && !f.UntilClose?
    ensures d.Field(LowerAll(f.field.name), f.field.value) == Framed(d, f)
  {
    if f.Length? {
      DecimalReads(f.field.value);
    }
  }

  lemma FramingReads(d: Decoder, f: Framing)
    requires AtLine(d) && d.phase == Headers && f.Valid() && !d.head.hasLength && !d.head.chunked
    requires d.headerBytes + |f.Field()| <= HEADER_LIMIT
    ensures d.Feed(f.Field()) == Framed(d, f).(headerBytes := d.headerBytes + |f.Field()|)
  {
    if f.UntilClose? {
      assert d.Feed("") == d;
    } else {
      var text := f.field.Text();
      var e := d.(line := text, headerBytes := d.headerBytes + |text + CRLF|);
      FieldLineIs(e, f.field);
      FramingField(e, f);
      LineReads(d, text, Framed(e, f));
    }
  }

  lemma BlankReads(d: Decoder)
    requires AtLine(d) && (d.phase == Headers || d.phase == Trailers) && d.headerBytes + 2 <= HEADER_LIMIT
    requires !(d.head.chunked && d.head.hasLength)
    ensures d.Feed(CRLF) == d.(headerBytes := d.headerBytes + 2).BlankLine()
  {
    assert "" + CRLF == CRLF;
    FeedLine(d, "", d.(headerBytes := d.headerBytes + 2).BlankLine());
  }

  /** The decoder at the end of the head of `m`. */
  function AfterHead(m: Message): Decoder
    requires m.Valid()
  {
    Framed(START.(phase := Headers, head := Head(m.status, false, false, m.Retry())), m.framing)
      .(headerBytes := |m.HeadText()|).BlankLine()
  }

  lemma StatusLineReads(m: Message)
    requires m.Valid()
    ensures START.Feed(m.StatusText() + CRLF)
            == START.(phase := Headers, headerBytes := |m.StatusText() + CRLF|, head := Head(m.status, false, false, ""))
  {
    var e := START.(line := m.StatusText(), headerBytes := |m.StatusText() + CRLF|);
    StatusReads(e, m);
    assert e.Line() == e.StatusLine(e.line);
    LineReads(START, m.StatusText(), e.(phase := Headers, head := Head(m.status, false, false, "")));
  }

  /** All the fields, from the state after the status line. */
  lemma FieldsAndFraming(d: Decoder, m: Message)
    requires m.Valid() && AtLine(d) && d.phase == Headers && d.head == Head(m.status, false, false, "")
    requires d.headerBytes + |Lines(m.before)| + |m.framing.Field()| + |Lines(m.after)| <= HEADER_LIMIT
    ensures d.Feed(Lines(m.before) + m.framing.Field() + Lines(m.after))
            == Framed(d.(head := d.head.(retry := m.Retry())), m.framing)
                 .(headerBytes := d.headerBytes + |Lines(m.before)| + |m.framing.Field()| + |Lines(m.after)|)
  {
    var b, c, e := Lines(m.before), m.framing.Field(), Lines(m.after);
    var d1 := d.(headerBytes := d.headerBytes + |b|, head := d.head.(retry := RetryAfter(m.before, "")));
    var d2 := Framed(d1, m.framing).(headerBytes := d1.headerBytes + |c|);
    FieldsRead(d, m.before);
    FramingReads(d1, m.framing);
    FieldsRead(d2, m.after);
    FeedThen(d, b, c, d1);
    FeedThen(d, b + c, e, d2);
  }

  lemma HeadTextIs(a: string, b: string, c: string, d: string)
    ensures a + b + c + d + CRLF == a + (b + c + d) + CRLF
  {
  }

  lemma HeadReads(m: Message)
    requires m.Valid()
    ensures START.Feed(m.HeadText()) == AfterHead(m)
  {
    var a, b := m.StatusText() + CRLF, Lines(m.before) + m.framing.Field() + Lines(m.after);
    HeadTextIs(m.StatusText() + CRLF, Lines(m.before), m.framing.Field(), Lines(m.after));
    var d0 := START.(phase := Headers, headerBytes := |a|, head := Head(m.status, false, false, ""));
    var d1 := Framed(d0.(head := d0.head.(retry := m.Retry())), m.framing).(headerBytes := |a| + |b|);
    StatusLineReads(m);
    FieldsAndFraming(d0, m);
    BlankReads(d1);
    FeedThen(START, a, b, d0);
    FeedThen(START, a + b, CRLF, d1);
  }

  // ----- The body -----

  /** Taking in the data of a body or of a chunk. */
  predicate InData(d: Decoder) {
    d.error == NoError && (d.phase == Close || ((d.phase == Fixed || d.phase == Phase.ChunkData) && d.remaining > 0))
  }

  lemma DataByte(d: Decoder, c: char)
    requires InData(d) && |d.body| < BODY_LIMIT
    ensures d.Step(c) ==
      if d.phase == Close then d.(body := d.body + [c])
      else if d.remaining > 1 then d.(body := d.body + [c], remaining := d.remaining - 1)
      else d.(body := d.body + [c], remaining := 0, phase := if d.phase == Fixed then Done else ChunkCr)
  {
  }

  /** Part of a body's data. */
  lemma {:induction false} SomeData(d: Decoder, data: string)
    requires InData(d) && (d.phase == Close || |data| < d.remaining) && |d.body| + |data| <= BODY_LIMIT
    ensures d.Feed(data) == d.(body := d.body + data, remaining := if d.phase == Close then d.remaining else d.remaining - |data|)
    decreases |data|
  {
    if data == "" {
      assert d.Feed("") == d && d.body + "" == d.body;
    } else {
      var init, c := data[..|data| - 1], data[|data| - 1];
      SomeData(d, init);
      assert init + [c] == data;
      FeedLast(d, init, c);
      DataByte(d.Feed(init), c);
      assert d.body + init + [c] == d.body + data;
    }
  }

  /** All of it: as much as was announced. */
  lemma AllData(d: Decoder, data: string)
    requires InData(d) && d.phase != Close && |data| == d.remaining && |d.body| + |data| <= BODY_LIMIT
    ensures d.Feed(data) == d.(body := d.body + data, remaining := 0, phase := if d.phase == Fixed then Done else ChunkCr)
  {
    var init, c := data[..|data| - 1], data[|data| - 1];
    SomeData(d, init);
    assert init + [c] == data;
    FeedLast(d, init, c);
    DataByte(d.Feed(init), c);
    assert d.body + init + [c] == d.body + data;
  }

  lemma SizeReads(d: Decoder, size: string, ext: string, n: nat)
    requires AtLine(d) && d.phase == ChunkSize && SizeLine(size, ext, n) && n <= BODY_LIMIT
    requires d.headerBytes + |size + ext + CRLF| <= HEADER_LIMIT
    ensures d.Feed(size + ext + CRLF) == d.(headerBytes := d.headerBytes + |size + ext + CRLF|, remaining := n,
                                            phase := if n > 0 then Phase.ChunkData else Trailers)
  {
    var s := size + ext;
    assert forall i | 0 <= i < |size| :: s[i] == size[i];
    assert ext != "" ==> s[|size|] == ext[0];
    FindIs(s, ';', 0, |size|);
    assert s[..|size|] == size;
    HexReads(size);
    FeedLine(d, s, d.(line := s, headerBytes := d.headerBytes + |s| + 2, remaining := n,
                      phase := if n > 0 then Phase.ChunkData else Trailers));
  }

  lemma ChunkEnds(d: Decoder)
    requires d.error == NoError && d.phase == ChunkCr
    ensures d.Feed(CRLF) == d.(phase := ChunkSize)
  {
    FeedCat(d, "\r", "\n");
    OneByte(d, '\r');
    OneByte(d.Step('\r'), '\n');
    assert CRLF == "\r" + "\n";
  }

  lemma ChunkReads(d: Decoder, c: Chunk)
    requires AtLine(d) && d.phase == ChunkSize && d.remaining == 0 && c.Valid() && |d.body| + |c.data| <= BODY_LIMIT
    requires d.headerBytes + |c.Head()| <= HEADER_LIMIT
    ensures d.Feed(c.Text()) == d.(headerBytes := d.headerBytes + |c.Head()|, body := d.body + c.data)
  {
    SizeReads(d, c.size, c.ext, |c.data|);
    var e := d.Feed(c.Head());
    AllData(e, c.data);
    ChunkEnds(e.Feed(c.data));
    FeedCat(e, c.data, CRLF);
    FeedCat(d, c.Head(), c.data + CRLF);
  }

  lemma FirstChunk(cs: seq<Chunk>) returns (c: Chunk, rest: seq<Chunk>)
    requires cs != [] && AllChunks(cs)
    ensures |rest| < |cs| && AllChunks(rest) && c.Valid()
    ensures ChunkText(cs) == c.Text() + ChunkText(rest) && Contents(cs) == c.data + Contents(rest)
    ensures ChunkHeads(cs) == |c.Head()| + ChunkHeads(rest)
  {
    c, rest := cs[0], cs[1..];
  }

  lemma {:induction false} ChunksRead(d: Decoder, cs: seq<Chunk>)
    requires AtLine(d) && d.phase == ChunkSize && d.remaining == 0 && AllChunks(cs)
    requires |d.body| + |Contents(cs)| <= BODY_LIMIT && d.headerBytes + ChunkHeads(cs) <= HEADER_LIMIT
    ensures d.Feed(ChunkText(cs)) == d.(headerBytes := d.headerBytes + ChunkHeads(cs), body := d.body + Contents(cs))
    decreases |cs|
  {
    if cs == [] {
      assert d.Feed("") == d && d.body + "" == d.body;
    } else {
      var c, rest := FirstChunk(cs);
      var e := d.(headerBytes := d.headerBytes + |c.Head()|, body := d.body + c.data);
      ChunkReads(d, c);
      ChunksRead(e, rest);
      FeedCat(d, c.Text(), ChunkText(rest));
      Joins(d.body, c.data, Contents(rest));
    }
  }

  lemma {:induction false} TrailersRead(d: Decoder, fs: seq<FieldLine>)
    requires AtLine(d) && d.phase == Trailers && forall i | 0 <= i < |fs| :: fs[i].Valid()
    requires d.headerBytes + |Lines(fs)| <= HEADER_LIMIT
    ensures d.Feed(Lines(fs)) == d.(headerBytes := d.headerBytes + |Lines(fs)|)
    decreases |fs|
  {
    if fs == [] {
      assert d.Feed("") == d;
    } else {
      var init, f := fs[..|fs| - 1], fs[|fs| - 1];
      TrailersRead(d, init);
      var e := d.Feed(Lines(init));
      FeedCat(d, Lines(init), f.Text() + CRLF);
      var held := e.(line := f.Text(), headerBytes := e.headerBytes + |f.Text()| + 2);
      FieldIs(held, f);
      FeedLine(e, f.Text(), held);
    }
  }

  /** After the chunks: the last chunk's line, the trailers and the blank line. */
  lemma TailReads(d: Decoder, f: Framing)
    requires AtLine(d) && d.phase == ChunkSize && f.Chunked? && f.Valid()
    requires d.headerBytes + |f.size + f.ext + CRLF| + |Lines(f.trailers) + CRLF| <= HEADER_LIMIT
    requires !d.head.hasLength
    ensures d.Feed((f.size + f.ext + CRLF) + (Lines(f.trailers) + CRLF))
            == d.(headerBytes := d.headerBytes + |f.size + f.ext + CRLF| + |Lines(f.trailers) + CRLF|, remaining := 0, phase := Done)
  {
    var b, c := f.size + f.ext + CRLF, Lines(f.trailers);
    var d2 := d.(headerBytes := d.headerBytes + |b|, remaining := 0, phase := Trailers);
    var d3 := d2.(headerBytes := d2.headerBytes + |c|);
    SizeReads(d, f.size, f.ext, 0);
    TrailersRead(d2, f.trailers);
    BlankReads(d3);
    FeedThen(d2, c, CRLF, d3);
    FeedThen(d, b, c + CRLF, d2);
  }

  lemma ChunkedReads(d: Decoder, f: Framing)
    requires AtLine(d) && d.phase == ChunkSize && d.remaining == 0 && d.body == "" && !d.head.hasLength
    requires f.Chunked? && f.Valid() && d.headerBytes + f.Extra() <= HEADER_LIMIT
    ensures d.Feed(f.Text()) == d.(headerBytes := d.headerBytes + f.Extra(), body := f.Body(), phase := Done)
  {
    var a, b, c := ChunkText(f.chunks), f.size + f.ext + CRLF, Lines(f.trailers) + CRLF;
    var d1 := d.(headerBytes := d.headerBytes + ChunkHeads(f.chunks), body := f.Body());
    Joins(Contents(f.chunks), "", "");
    ChunksRead(d, f.chunks);
    TailReads(d1, f);
    FeedThen(d, a, b + c, d1);
    Joins(a, b, c);
  }

  // ----- The round trip -----

  /** At the start of the body, as the head of `m` leaves it. */
  lemma HeadIsRead(m: Message) returns (d: Decoder)
    requires m.Valid()
    ensures d == AfterHead(m) && d.error == NoError && d.body == "" && d.line == "" && d.cr == NoCr
    ensures d.head.status == m.status && d.head.retry == m.Retry() && d.headerBytes == |m.HeadText()|
    ensures match m.framing
            case Length(_, content) => d.remaining == |content| && d.phase == if content == "" then Done else Fixed
            case Chunked(_, _, _, _, _) => d.remaining == 0 && d.phase == ChunkSize && !d.head.hasLength
            case UntilClose(_) => d.phase == Close
  {
    d := AfterHead(m);
  }

  /** What the body makes of it. */
  function AfterBody(d: Decoder, f: Framing): Decoder {
    match f
    case Length(_, content) => d.(body := content, remaining := 0, phase := Done)
    case Chunked(_, _, _, _, _) => d.(headerBytes := d.headerBytes + f.Extra(), body := f.Body(), phase := Done)
    case UntilClose(content) => d.(body := content)
  }

  lemma LengthReads(d: Decoder, content: string)
    requires d.error == NoError && d.body == "" && d.remaining == |content| <= BODY_LIMIT
    requires d.phase == if content == "" then Done else Fixed
    ensures d.Feed(content) == d.(body := content, remaining := 0, phase := Done)
  {
    if content == "" {
      assert d.Feed("") == d;
    } else {
      AllData(d, content);
      assert "" + content == content;
    }
  }

  lemma CloseReads(d: Decoder, content: string)
    requires d.error == NoError && d.body == "" && d.phase == Close && |content| <= BODY_LIMIT
    ensures d.Feed(content) == d.(body := content)
  {
    SomeData(d, content);
    assert "" + content == content;
  }

  lemma BodyReads(m: Message)
    requires m.Valid()
    ensures AfterHead(m).Feed(m.framing.Text()) == AfterBody(AfterHead(m), m.framing)
  {
    var d := HeadIsRead(m);
    match m.framing
    case Length(_, content) => LengthReads(d, content);
    case Chunked(_, _, _, _, _) => ChunkedReads(d, m.framing);
    case UntilClose(content) => CloseReads(d, content);
  }

  /** The decoder reads exactly the status, the body and the Retry-After that were written; all but a
      body that runs to the end of the connection are then complete, and that one is at its end. */
  lemma DecodeInvertsEncode(m: Message)
    requires m.Valid()
    ensures var d := START.Feed(m.Wire());
            && d.error == NoError && d.body == m.framing.Body()
            && d.head.status == m.status && d.head.retry == m.Retry()
            && d.Eof().phase == Done && d.Eof().error == NoError
            && (d.phase == Done <==> !m.framing.UntilClose?)
  {
    HeadReads(m);
    FeedThen(START, m.HeadText(), m.framing.Text(), AfterHead(m));
    BodyReads(m);
    var d := HeadIsRead(m);
  }

  /** After the end of a response another byte is an error. */
  lemma DoneThenError(d: Decoder, c: char)
    requires d.phase == Done
    ensures d.Step(c).error != NoError
  {
  }

  lemma DoneIsLast(w: string, n: nat)
    requires n < |w| && START.Feed(w).error == NoError
    ensures START.Feed(w[..n]).phase != Done
  {
    if START.Feed(w[..n]).phase == Done {
      TakeOne(w, n);
      FeedLast(START, w[..n], w[n]);
      DoneThenError(START.Feed(w[..n]), w[n]);
      FailedStays(START, w, n + 1);
    }
  }

  /** A response is complete only at its last byte: no prefix of one that has an end is taken for it. */
  lemma PrefixIsNotDone(m: Message, n: nat)
    requires m.Valid() && n < |m.Wire()|
    ensures START.Feed(m.Wire()[..n]).phase != Done
  {
    DecodeInvertsEncode(m);
    DoneIsLast(m.Wire(), n);
  }

  /** The same in any number of pieces. */
  lemma PiecesDecode(m: Message, pieces: seq<string>)
    requires m.Valid() && Joined(pieces) == m.Wire()
    ensures var d := FeedPieces(START, pieces);
            && d.error == NoError && d.body == m.framing.Body()
            && d.head.status == m.status && d.head.retry == m.Retry()
            && d.Eof().phase == Done && d.Eof().error == NoError
            && (d.phase == Done <==> !m.framing.UntilClose?)
  {
    PiecesAreOne(START, pieces);
    DecodeInvertsEncode(m);
  }

  // ----- Names -----

  lemma ColonEnds(name: string, rest: string)
    requires forall i | 0 <= i < |name| :: name[i] != ':'
    ensures var s := name + ":" + rest;
            Find(s, ':', 0) == |name| < |s| && s[..|name|] == name && forall i | 0 <= i < |name| :: s[i] == name[i]
  {
    var s := name + ":" + rest;
    assert forall i | 0 <= i < |name| :: s[i] == name[i];
    FindIs(s, ':', 0, |name|);
    assert s[..|name|] == name;
  }

  /** A field line is refused, wherever it stands, unless its name is of letters, digits and hyphens; in
      the trailers nothing else is asked of it. RFC 9110, section 5.6.2, lets a name have other characters. */
  lemma NamesAreChecked(d: Decoder, name: string, rest: string)
    requires d.error == NoError && (d.phase == Headers || d.phase == Trailers)
    requires d.line == name + ":" + rest && forall i | 0 <= i < |name| :: name[i] != ':'
    ensures d.Line().error == NoError ==> name != "" && forall i | 0 <= i < |name| :: IsNameChar(name[i])
    ensures d.phase == Trailers && name != "" && (forall i | 0 <= i < |name| :: IsNameChar(name[i])) ==>
              d.Line().error == NoError
  {
    ColonEnds(name, rest);
    assert d.Line() == d.HeaderLine(d.line);
  }
}
