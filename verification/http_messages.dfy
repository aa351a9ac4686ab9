/** Responses as RFC 9112 writes them, and that the decoder inverts the writing: sections 4 (status
    line), 5 (field lines), 6.3 (message body length) and 7.1 (chunked transfer coding). */
module HttpMessages {
  import opened Wrappers
  import opened Errors
  import opened Https

  const CRLF := "\r\n"

  predicate LineChars(s: string) { forall i | 0 <= i < |s| :: s[i] >= ' ' || s[i] == '\t' }

  predicate LineText(s: string) { LineChars(s) && |s| < LINE_SIZE }

  predicate Blanks(s: string) { forall i | 0 <= i < |s| :: IsBlank(s[i]) }

  // ----- What is written -----

  /** A field line, with white space around its value. */
  datatype FieldLine = FieldLine(name: string, pre: string, value: string, post: string)
  {
    function Text(): string { name + ":" + pre + value + post }

    predicate Valid() {
      && name != "" && (forall i | 0 <= i < |name| :: IsNameChar(name[i]))
      && Blanks(pre) && Blanks(post) && LineText(Text())
      && (value != "" ==> !IsBlank(value[0]) && !IsBlank(value[|value| - 1]))
    }

    predicate Named(n: string) { LowerAll(name) == n }

    /** A field that does not frame the body, given the Retry-After seen before it. */
    predicate Plain(retry: string) {
      && Valid() && !Named("content-length") && !Named("transfer-encoding")
      && (Named("content-encoding") ==> value == "identity")
      && (Named("retry-after") ==> |value| < RETRY_SIZE && retry == "")
    }

    function Retry(retry: string): string { if Named("retry-after") then value else retry }
  }

  function Lines(fs: seq<FieldLine>): string {
    if fs == [] then "" else Lines(fs[..|fs| - 1]) + (fs[|fs| - 1].Text() + CRLF)
  }

  function RetryAfter(fs: seq<FieldLine>, retry: string): string {
    if fs == [] then retry else fs[|fs| - 1].Retry(RetryAfter(fs[..|fs| - 1], retry))
  }

  predicate AllPlain(fs: seq<FieldLine>, retry: string) {
    fs != [] ==> AllPlain(fs[..|fs| - 1], retry) && fs[|fs| - 1].Plain(RetryAfter(fs[..|fs| - 1], retry))
  }

  function HexValue(s: string): nat
    requires forall i | 0 <= i < |s| :: IsHexDigit(s[i])
  {
    if s == "" then 0 else HexValue(s[..|s| - 1]) * 16 + HexDigit(s[|s| - 1])
  }

  function DecimalValue(s: string): nat
    requires forall i | 0 <= i < |s| :: IsDigit(s[i])
  {
    if s == "" then 0 else DecimalValue(s[..|s| - 1]) * 10 + HexDigit(s[|s| - 1])
  }

  /** The line before a chunk's data: its size in hexadecimal, and any extension. */
  predicate SizeLine(size: string, ext: string, n: nat) {
    && 0 < |size| <= 8 && (forall i | 0 <= i < |size| :: IsHexDigit(size[i])) && HexValue(size) == n
    && (ext != "" ==> ext[0] == ';') && LineText(size + ext)
  }

  datatype Chunk = Chunk(size: string, ext: string, data: string)
  {
    predicate Valid() { data != "" && SizeLine(size, ext, |data|) }

    function Head(): string { size + ext + CRLF }

    function Text(): string { Head() + (data + CRLF) }
  }

  function ChunkText(cs: seq<Chunk>): string {
    if cs == [] then "" else cs[0].Text() + ChunkText(cs[1..])
  }

  function ChunkHeads(cs: seq<Chunk>): nat {
    if cs == [] then 0 else |cs[0].Head()| + ChunkHeads(cs[1..])
  }

  function Contents(cs: seq<Chunk>): string {
    if cs == [] then "" else cs[0].data + Contents(cs[1..])
  }

  predicate AllChunks(cs: seq<Chunk>) { forall i | 0 <= i < |cs| :: cs[i].Valid() }

  datatype Framing =
    | Length(field: FieldLine, content: string)
    | Chunked(field: FieldLine, chunks: seq<Chunk>, size: string, ext: string, trailers: seq<FieldLine>)
    | UntilClose(content: string)
  {
    function Body(): string { if Chunked? then Contents(chunks) else content }

    /** The framing field, if there is one. */
    function Field(): string { if UntilClose? then "" else field.Text() + CRLF }

    /** The lines of a chunked body that are not data. */
    function Extra(): nat { if Chunked? then ChunkHeads(chunks) + |size + ext + CRLF| + |Lines(trailers) + CRLF| else 0 }

    function Text(): string {
      if Chunked? then ChunkText(chunks) + (size + ext + CRLF) + (Lines(trailers) + CRLF) else content
    }

    predicate Valid() {
      && |Body()| <= BODY_LIMIT
      && (Length? ==>
            && field.Valid() && field.Named("content-length") && 0 < |field.value| <= 10
            && (forall i | 0 <= i < |field.value| :: IsDigit(field.value[i])) && DecimalValue(field.value) == |content|)
      && (Chunked? ==>
            && field.Valid() && field.Named("transfer-encoding") && field.value == "chunked" && AllChunks(chunks)
            && SizeLine(size, ext, 0) && forall i | 0 <= i < |trailers| :: trailers[i].Valid())
    }
  }

  function Digit(n: nat): char
    requires n < 10
  {
    ('0' as int + n) as char
  }

  datatype Message = Message(minor: char, status: nat, reason: string, before: seq<FieldLine>, framing: Framing,
                             after: seq<FieldLine>)
  {
    function StatusText(): string
      requires status < 1000
    {
      "HTTP/1." + [minor, ' ', Digit(status / 100), Digit(status / 10 % 10), Digit(status % 10)] + reason
    }

    function HeadText(): string
      requires status < 1000
    {
      StatusText() + CRLF + Lines(before) + framing.Field() + Lines(after) + CRLF
    }

    function Wire(): string
      requires status < 1000
    {
      HeadText() + framing.Text()
    }

    function Retry(): string { RetryAfter(after, RetryAfter(before, "")) }

    predicate Valid() {
      && (minor == '0' || minor == '1') && 200 <= status <= 599 && (reason != "" ==> reason[0] == ' ')
      && LineText(StatusText()) && AllPlain(before, "") && AllPlain(after, RetryAfter(before, "")) && framing.Valid()
      && |HeadText()| + framing.Extra() <= HEADER_LIMIT
    }
  }

  // ----- Feeding in pieces -----

  /** Two pieces are as good as one. */
  lemma {:induction false} FeedCat(d: Decoder, a: string, b: string)
    ensures d.Feed(a + b) == d.Feed(a).Feed(b)
    decreases |b|
  {
    if b == "" {
      assert a + b == a;
    } else {
      assert (a + b)[..|a + b| - 1] == a + b[..|b| - 1];
      FeedCat(d, a, b[..|b| - 1]);
    }
  }

  function Joined(pieces: seq<string>): string {
    if pieces == [] then "" else Joined(pieces[..|pieces| - 1]) + pieces[|pieces| - 1]
  }

  ghost function FeedPieces(d: Decoder, pieces: seq<string>): Decoder {
    if pieces == [] then d else FeedPieces(d, pieces[..|pieces| - 1]).Feed(pieces[|pieces| - 1])
  }

  /** However a wire is cut up, the decoder ends in the same state. */
  lemma {:induction false} PiecesAreOne(d: Decoder, pieces: seq<string>)
    ensures FeedPieces(d, pieces) == d.Feed(Joined(pieces))
    decreases |pieces|
  {
    if pieces != [] {
      PiecesAreOne(d, pieces[..|pieces| - 1]);
      FeedCat(d, Joined(pieces[..|pieces| - 1]), pieces[|pieces| - 1]);
    }
  }

  lemma OneByte(d: Decoder, c: char)
    ensures d.Feed([c]) == d.Step(c)
  {
    assert [c][..0] == "" && d.Feed("") == d;
  }

  // ----- Lines -----

  predicate InLine(p: Phase) { p == Status || p == Headers || p == ChunkSize || p == Trailers }

  /** At the start of a line. */
  predicate AtLine(d: Decoder) { InLine(d.phase) && d.error == NoError && d.line == "" && d.cr == NoCr }

  /** A character of a line. */
  lemma LineChar(d: Decoder, c: char)
    requires InLine(d.phase) && d.error == NoError && d.cr == NoCr && (c >= ' ' || c == '\t')
    requires |d.line| + 1 < LINE_SIZE && d.headerBytes + 1 <= HEADER_LIMIT
    ensures d.Step(c) == d.(line := d.line + [c], headerBytes := d.headerBytes + 1)
  {
  }

  lemma FeedLast(d: Decoder, text: string, c: char)
    ensures d.Feed(text + [c]) == d.Feed(text).Step(c)
  {
    assert (text + [c])[..|text|] == text;
  }

  lemma {:induction false} FeedText(d: Decoder, text: string)
    requires AtLine(d) && LineText(text) && d.headerBytes + |text| <= HEADER_LIMIT
    ensures d.Feed(text) == d.(line := text, headerBytes := d.headerBytes + |text|)
    decreases |text|
  {
    if text == "" {
      assert d.Feed("") == d;
    } else {
      var init, c := text[..|text| - 1], text[|text| - 1];
      FeedText(d, init);
      assert init + [c] == text;
      FeedLast(d, init, c);
      LineChar(d.(line := init, headerBytes := d.headerBytes + |init|), c);
    }
  }

  /** The byte `c` makes `e` of `d`. */
  ghost predicate Steps(d: Decoder, c: char, e: Decoder) { forall b {:trigger Look(b)} :: Look(b) ==> d.Step(c) == e }

  lemma CarriageReturn(d: Decoder)
    requires InLine(d.phase) && d.error == NoError && d.cr == NoCr && d.headerBytes + 1 <= HEADER_LIMIT
    ensures Steps(d, '\r', d.(cr := SawCr, headerBytes := d.headerBytes + 1))
  {
  }

  lemma TextIsLineFeed(d: Decoder)
    requires d.cr == SawCr && d.headerBytes + 1 <= HEADER_LIMIT
    ensures d.Text('\n') == d.(headerBytes := d.headerBytes + 1).LineFeed()
  {
    calc {
      d.Text('\n');
      d.(headerBytes := d.headerBytes + 1).LineFeed();
    }
  }

  lemma StepIsText(d: Decoder, c: char)
    requires d.error == NoError && d.phase != Done && d.phase != Fixed && d.phase != Close
    requires d.phase != Phase.ChunkData && d.phase != ChunkCr && d.phase != ChunkLf
    ensures d.Step(c) == d.Text(c)
  {
  }

  lemma LineFeedIs(d: Decoder, e: Decoder)
    requires d.(cr := NoCr).Gives(e) && e.error == NoError
    ensures d.LineFeed() == e.(line := "")
  {
    assert Look(true);
  }

  lemma NewLine(d: Decoder, e: Decoder)
    requires InLine(d.phase) && d.error == NoError && d.cr == SawCr && d.headerBytes + 1 <= HEADER_LIMIT
    requires d.(headerBytes := d.headerBytes + 1, cr := NoCr).Gives(e) && e.error == NoError
    ensures Steps(d, '\n', e.(line := ""))
  {
    StepIsText(d, '\n');
    TextIsLineFeed(d);
    LineFeedIs(d.(headerBytes := d.headerBytes + 1), e);
  }

  /** Feeding `text` makes `e` of `d`. */
  ghost predicate Fed(d: Decoder, text: string, e: Decoder) { forall b {:trigger Look(b)} :: Look(b) ==> d.Feed(text) == e }

  lemma FedOne(d: Decoder, text: string, c: char, e: Decoder, r: Decoder)
    requires Fed(d, text, e) && Steps(e, c, r)
    ensures Fed(d, text + [c], r)
  {
    assert Look(true);
    FeedLast(d, text, c);
  }

  lemma FedText(d: Decoder, text: string)
    requires AtLine(d) && LineText(text) && d.headerBytes + |text| <= HEADER_LIMIT
    ensures Fed(d, text, d.(line := text, headerBytes := d.headerBytes + |text|))
  {
    FeedText(d, text);
  }

  lemma FedLine(d: Decoder, text: string, e: Decoder)
    requires AtLine(d) && LineText(text) && d.headerBytes + |text| + 2 <= HEADER_LIMIT
    requires d.(line := text, headerBytes := d.headerBytes + |text| + 2).Gives(e) && e.error == NoError
    ensures Fed(d, text + CRLF, e.(line := ""))
  {
    var held := d.(line := text, headerBytes := d.headerBytes + |text|);
    var broken := held.(cr := SawCr, headerBytes := held.headerBytes + 1);
    FedText(d, text);
    CarriageReturn(held);
    FedOne(d, text, '\r', held, broken);
    NewLine(broken, e);
    FedOne(d, text + "\r", '\n', broken, e.(line := ""));
    assert text + "\r" + "\n" == text + CRLF;
  }

  /** A whole line is acted on when its line feed comes. */
  lemma FeedLine(d: Decoder, text: string, e: Decoder)
    requires AtLine(d) && LineText(text) && d.headerBytes + |text| + 2 <= HEADER_LIMIT
    requires d.(line := text, headerBytes := d.headerBytes + |text| + 2).Gives(e) && e.error == NoError
    ensures d.Feed(text + CRLF) == e.(line := "")
  {
    FedLine(d, text, e);
    assert Look(true);
  }

  lemma {:induction false} FindIs(s: string, c: char, from: nat, i: nat)
    requires from <= i <= |s| && (forall k | from <= k < i :: s[k] != c) && (i < |s| ==> s[i] == c)
    ensures Find(s, c, from) == i
    decreases i - from
  {
    if from < i {
      FindIs(s, c, from + 1, i);
    }
  }

  lemma {:induction false} TrimFrontIs(pre: string, rest: string)
    requires Blanks(pre) && (rest != "" ==> !IsBlank(rest[0]))
    ensures TrimFront(pre + rest) == rest
    decreases |pre|
  {
    if pre == "" {
      assert pre + rest == rest;
    } else {
      assert (pre + rest)[1..] == pre[1..] + rest;
      TrimFrontIs(pre[1..], rest);
    }
  }

  lemma {:induction false} TrimBackIs(rest: string, post: string)
    requires Blanks(post) && (rest != "" ==> !IsBlank(rest[|rest| - 1]))
    ensures TrimBack(rest + post) == rest
    decreases |post|
  {
    if post == "" {
      assert rest + post == rest;
    } else {
      assert (rest + post)[..|rest + post| - 1] == rest + post[..|post| - 1];
      TrimBackIs(rest, post[..|post| - 1]);
    }
  }

  lemma {:induction false} TrimBlank(s: string)
    requires Blanks(s)
    ensures TrimFront(s) == ""
    decreases |s|
  {
    if s != "" {
      TrimBlank(s[1..]);
    }
  }

  lemma TrimIs(pre: string, value: string, post: string)
    requires Blanks(pre) && Blanks(post)
    requires value != "" ==> !IsBlank(value[0]) && !IsBlank(value[|value| - 1])
    ensures Trim(pre + value + post) == value
  {
    if value == "" {
      assert Blanks(pre + value + post);
      TrimBlank(pre + value + post);
    } else {
      assert pre + value + post == pre + (value + post);
      TrimFrontIs(pre, value + post);
      TrimBackIs(value, post);
    }
  }

  /** A field line is taken for its name and its value. */
  lemma FieldIs(d: Decoder, f: FieldLine)
    requires f.Valid()
    ensures d.HeaderLine(f.Text()) == if d.phase == Trailers then d else d.Field(LowerAll(f.name), f.value)
  {
    var s := f.Text();
    var n := |f.name|;
    assert s[n] == ':' && (forall i | 0 <= i < n :: s[i] == f.name[i]);
    FindIs(s, ':', 0, n);
    assert s[..n] == f.name && s[n + 1..] == f.pre + f.value + f.post;
    TrimIs(f.pre, f.value, f.post);
  }
}
