/** `HttpDecoder` of components/controller/http_decoder.cpp: a strict response decoder fed any number
    of bytes at a time. `Decoder` and its members say what each byte does; the class keeps the fields. */
module Https {
  import opened Wrappers
  import opened Errors

  const BODY_LIMIT := 16384
  const HEADER_LIMIT := 8192
  const LINE_SIZE := 1024
  const RETRY_SIZE := 128

  datatype Phase = Status | Headers | Fixed | Close | ChunkSize | ChunkData | ChunkCr | ChunkLf | Trailers | Done

  predicate IsDigit(c: char) { '0' <= c <= '9' }

  predicate IsNameChar(c: char) { IsDigit(c) || 'a' <= c <= 'z' || 'A' <= c <= 'Z' || c == '-' }

  predicate IsBlank(c: char) { c == ' ' || c == '\t' }

  function Lower(c: char): char { if 'A' <= c <= 'Z' then (c as int + 32) as char else c }

  function LowerAll(s: string): (r: string)
    ensures |r| == |s|
  {
    if s == "" then "" else LowerAll(s[..|s| - 1]) + [Lower(s[|s| - 1])]
  }

  /** The first place of `c` at or after `from`, or the length. */
  function Find(s: string, c: char, from: nat): (i: nat)
    requires from <= |s|
    ensures from <= i <= |s| && (i < |s| ==> s[i] == c)
    decreases |s| - from
  {
    if from == |s| || s[from] == c then from else Find(s, c, from + 1)
  }

  function TrimFront(s: string): string {
    if s != "" && IsBlank(s[0]) then TrimFront(s[1..]) else s
  }

  function TrimBack(s: string): string {
    if s != "" && IsBlank(s[|s| - 1]) then TrimBack(s[..|s| - 1]) else s
  }

  function Trim(s: string): string { TrimBack(TrimFront(s)) }

  predicate IsHexDigit(c: char) { IsDigit(c) || 'a' <= c <= 'f' || 'A' <= c <= 'F' }

  function HexDigit(c: char): (n: nat)
    requires IsHexDigit(c)
  {
    if IsDigit(c) then c as int - '0' as int
    else if 'a' <= c <= 'f' then c as int - 'a' as int + 10
    else c as int - 'A' as int + 10
  }

  /** What a number in a header or chunk line makes: a value, or why it was refused. */
  datatype Number = Value(n: nat) | Bad(error: Error)

  function HexNumber(s: string): Number {
    if s == "" then Value(0)
    else
      var init, c := HexNumber(s[..|s| - 1]), s[|s| - 1];
      if init.Bad? then init
      else if !IsHexDigit(c) then Bad(Malformed)
      else if init.n * 16 + HexDigit(c) > BODY_LIMIT then Bad(TooLarge)
      else Value(init.n * 16 + HexDigit(c))
  }

  function DecimalNumber(s: string): Number {
    if s == "" then Value(0)
    else
      var init, c := DecimalNumber(s[..|s| - 1]), s[|s| - 1];
      if init.Bad? then init
      else if !IsDigit(c) then Bad(Malformed)
      else if init.n * 10 + (c as int - '0' as int) > BODY_LIMIT then Bad(TooLarge)
      else Value(init.n * 10 + (c as int - '0' as int))
  }

  /** What the lines of the head have said so far. */
  datatype Head = Head(status: nat, hasLength: bool, chunked: bool, retry: string)

  /** Whether the line's carriage return has been seen. */
  datatype Cr = NoCr | SawCr

  datatype Decoder = Decoder(phase: Phase, error: Error, body: string, line: string, headerBytes: nat, remaining: nat,
                             cr: Cr, head: Head)
  {
    function Fail(e: Error): Decoder { this.(error := e) }

    function StatusLine(s: string): Decoder {
      if |s| < 12 || (s[..9] != "HTTP/1.1 " && s[..9] != "HTTP/1.0 ")
         || !IsDigit(s[9]) || !IsDigit(s[10]) || !IsDigit(s[11]) || (|s| > 12 && s[12] != ' ')
      then Fail(Malformed)
      else
        var n := (s[9] as int - '0' as int) * 100 + (s[10] as int - '0' as int) * 10 + (s[11] as int - '0' as int);
        var d := this.(head := head.(status := n));
        if n < 200 || n > 599 then d.Fail(Malformed) else d.(phase := Headers)
    }

    function ChunkLine(s: string): Decoder {
      var size := s[..Find(s, ';', 0)];
      if size == "" || |size| > 8 then Fail(Malformed)
      else
        match HexNumber(size)
        case Bad(e) => Fail(e)
        case Value(n) => this.(remaining := n, phase := if n > 0 then ChunkData else Trailers)
    }

    function BlankLine(): Decoder {
      if phase == Trailers then this.(phase := Done)
      else if head.chunked && head.hasLength then Fail(Malformed)
      else if head.chunked then this.(phase := ChunkSize)
      else if head.hasLength then this.(phase := if remaining > 0 then Fixed else Done)
      else this.(phase := Close)
    }

    function Field(name: string, v: string): Decoder {
      if name == "content-length" then
        if head.hasLength || v == "" || |v| > 10 then Fail(Malformed)
        else
          var d := this.(head := head.(hasLength := true));
          match DecimalNumber(v)
          case Bad(e) => d.Fail(e)
          case Value(n) => d.(remaining := n)
      else if name == "transfer-encoding" then
        if head.chunked || v != "chunked" then Fail(Malformed) else this.(head := head.(chunked := true))
      else if name == "content-encoding" && v != "identity" then Fail(Malformed)
      else if name == "retry-after" then
        if |v| >= RETRY_SIZE || head.retry != "" then Fail(Malformed) else this.(head := head.(retry := v))
      else this
    }

    function HeaderLine(s: string): Decoder {
      var colon := Find(s, ':', 0);
      if colon == |s| || colon == 0 || exists i | 0 <= i < colon :: !IsNameChar(s[i]) then Fail(Malformed)
      else if phase == Trailers then this
      else Field(LowerAll(s[..colon]), Trim(s[colon + 1..]))
    }

    /** A complete line. */
    function Line(): Decoder {
      if phase == Status then StatusLine(line)
      else if phase == ChunkSize then ChunkLine(line)
      else if line == "" then BlankLine()
      else HeaderLine(line)
    }

    /** One byte of a body. */
    function Data(c: char): Decoder {
      if |body| >= BODY_LIMIT then Fail(TooLarge)
      else
        var d := this.(body := body + [c]);
        if phase == Close then d
        else if remaining == 1 then d.(remaining := 0, phase := if phase == Fixed then Done else ChunkCr)
        else d.(remaining := if remaining > 0 then remaining - 1 else 0)
    }

    /** The line feed after a carriage return. */
    ghost function LineFeed(): Decoder {
      var e := this.(cr := NoCr).AfterLine();
      if e.error == NoError then e.(line := "") else e
    }

    /** The line held is acted on, and leaves `e`. */
    ghost predicate Gives(e: Decoder) { forall b {:trigger Look(b)} :: Look(b) ==> Line() == e }

    /** `Line`, looked into only where a proof says so. */
    ghost function AfterLine(): (e: Decoder)
      ensures Gives(e)
    {
      assert Gives(Line());
      var e :| Gives(e);
      e
    }

    /** One byte of a line. */
    ghost function Text(c: char): Decoder {
      var d := this.(headerBytes := headerBytes + 1);
      if headerBytes + 1 > HEADER_LIMIT then d.Fail(TooLarge)
      else if cr == SawCr then
        if c != '\n' then d.Fail(Malformed) else d.LineFeed()
      else if c == '\r' then d.(cr := SawCr)
      else if (c < ' ' && c != '\t') || |line| + 1 >= LINE_SIZE then d.Fail(Malformed)
      else d.(line := line + [c])
    }

    ghost function Step(c: char): Decoder {
      if error != NoError then this
      else if phase == Done then Fail(Malformed)
      else if phase == Fixed || phase == Close || phase == ChunkData then Data(c)
      else if phase == ChunkCr then if c != '\r' then Fail(Malformed) else this.(phase := ChunkLf)
      else if phase == ChunkLf then if c != '\n' then Fail(Malformed) else this.(phase := ChunkSize)
      else Text(c)
    }

    ghost function Feed(data: string): Decoder {
      if data == "" then this else Feed(data[..|data| - 1]).Step(data[|data| - 1])
    }

    /** The connection ended. */
    function Eof(): Decoder {
      var d := if phase == Close then this.(phase := Done) else this;
      if d.phase != Done then d.Fail(Malformed) else d
    }
  }

  const START := Decoder(Status, NoError, "", "", 0, 0, NoCr, Head(0, false, false, ""))

  /** The object, over its body buffer. */
  class HttpDecoder {
    var phase: Phase
    var error: Error
    var body: string
    var line: string
    var headerBytes: nat
    var remaining: nat
    var cr: Cr
    var head: Head

    function D(): Decoder
      reads this
    {
      Decoder(phase, error, body, line, headerBytes, remaining, cr, head)
    }

    constructor ()
      ensures D() == START
    {
      phase, error, body, line, headerBytes, remaining := Status, NoError, "", "", 0, 0;
      cr, head := NoCr, Head(0, false, false, "");
    }

    method Fail(e: Error)
      modifies this`error
      ensures D() == old(D()).Fail(e)
    {
      error := e;
    }

    method HexSize(s: string) returns (r: Number)
      ensures r == HexNumber(s)
    {
      var n: nat := 0;
      for i := 0 to |s|
        invariant HexNumber(s[..i]) == Value(n)
      {
        assert s[..i + 1][..i] == s[..i];
        if !IsHexDigit(s[i]) {
          RefusalStays(s, i + 1);
          return Bad(Malformed);
        }
        n := n * 16 + HexDigit(s[i]);
        if n > BODY_LIMIT {
          RefusalStays(s, i + 1);
          return Bad(TooLarge);
        }
      }
      assert s[..|s|] == s;
      r := Value(n);
    }

    method DecimalSize(s: string) returns (r: Number)
      ensures r == DecimalNumber(s)
    {
      var n: nat := 0;
      for i := 0 to |s|
        invariant DecimalNumber(s[..i]) == Value(n)
      {
        assert s[..i + 1][..i] == s[..i];
        if !IsDigit(s[i]) {
          RefusalStays(s, i + 1);
          return Bad(Malformed);
        }
        n := n * 10 + (s[i] as int - '0' as int);
        if n > BODY_LIMIT {
          RefusalStays(s, i + 1);
          return Bad(TooLarge);
        }
      }
      assert s[..|s|] == s;
      r := Value(n);
    }

    method StatusLine(s: string)
      modifies this`phase, this`error, this`head
      ensures D() == old(D()).StatusLine(s)
    {
      if |s| < 12 || (s[..9] != "HTTP/1.1 " && s[..9] != "HTTP/1.0 ")
         || !IsDigit(s[9]) || !IsDigit(s[10]) || !IsDigit(s[11]) || (|s| > 12 && s[12] != ' ') {
        Fail(Malformed);
        return;
      }
      var n := (s[9] as int - '0' as int) * 100 + (s[10] as int - '0' as int) * 10 + (s[11] as int - '0' as int);
      head := head.(status := n);
      if n < 200 || n > 599 {
        Fail(Malformed);
        return;
      }
      phase := Headers;
    }

    method ChunkLine(s: string)
      modifies this`phase, this`error, this`remaining
      ensures D() == old(D()).ChunkLine(s)
    {
      var end := 0;
      while end < |s| && s[end] != ';'
        invariant end <= |s| && Find(s, ';', end) == Find(s, ';', 0)
      {
        end := end + 1;
      }
      var size := s[..end];
      if size == "" || |size| > 8 {
        Fail(Malformed);
        return;
      }
      var n := HexSize(size);
      if n.Bad? {
        Fail(n.error);
        return;
      }
      remaining := n.n;
      phase := if n.n > 0 then ChunkData else Trailers;
    }

    method BlankLine()
      modifies this`phase, this`error
      ensures D() == old(D()).BlankLine()
    {
      if phase == Trailers {
        phase := Done;
      } else if head.chunked && head.hasLength {
        Fail(Malformed);
      } else if head.chunked {
        phase := ChunkSize;
      } else if head.hasLength {
        phase := if remaining > 0 then Fixed else Done;
      } else {
        phase := Close;
      }
    }

    method Field(name: string, v: string)
      modifies this`error, this`head, this`remaining
      ensures D() == old(D()).Field(name, v)
    {
      if name == "content-length" {
        if head.hasLength || v == "" || |v| > 10 {
          Fail(Malformed);
          return;
        }
        head := head.(hasLength := true);
        var n := DecimalSize(v);
        if n.Bad? {
          Fail(n.error);
          return;
        }
        remaining := n.n;
      } else if name == "transfer-encoding" {
        if head.chunked || v != "chunked" {
          Fail(Malformed);
          return;
        }
        head := head.(chunked := true);
      } else if name == "content-encoding" && v != "identity" {
        Fail(Malformed);
      } else if name == "retry-after" {
        if |v| >= RETRY_SIZE || head.retry != "" {
          Fail(Malformed);
          return;
        }
        head := head.(retry := v);
      }
    }

    method Trimmed(s: string) returns (v: string)
      ensures v == Trim(s)
    {
      v := s;
      while v != "" && IsBlank(v[0])
        invariant TrimFront(v) == TrimFront(s)
        decreases |v|
      {
        v := v[1..];
      }
      ghost var front := v;
      while v != "" && IsBlank(v[|v| - 1])
        invariant TrimBack(v) == TrimBack(front)
        decreases |v|
      {
        v := v[..|v| - 1];
      }
    }

    method HeaderLine(s: string)
      modifies this`error, this`head, this`remaining
      ensures D() == old(D()).HeaderLine(s)
    {
      var colon := 0;
      while colon < |s| && s[colon] != ':'
        invariant colon <= |s| && Find(s, ':', colon) == Find(s, ':', 0)
      {
        colon := colon + 1;
      }
      if colon == |s| || colon == 0 {
        Fail(Malformed);
        return;
      }
      var name := "";
      for i := 0 to colon
        invariant name == LowerAll(s[..i]) && forall k | 0 <= k < i :: IsNameChar(s[k])
      {
        if !IsNameChar(s[i]) {
          Fail(Malformed);
          return;
        }
        assert s[..i + 1][..i] == s[..i];
        name := name + [Lower(s[i])];
      }
      var v := Trimmed(s[colon + 1..]);
      if phase != Trailers {
        Field(name, v);
      }
    }

    method EndLine()
      modifies this`phase, this`error, this`head, this`remaining
      ensures D() == old(D()).Line()
    {
      if phase == Status {
        StatusLine(line);
      } else if phase == ChunkSize {
        ChunkLine(line);
      } else if line == "" {
        BlankLine();
      } else {
        HeaderLine(line);
      }
    }

    method Data(c: char)
      modifies this`phase, this`error, this`body, this`remaining
      ensures D() == old(D()).Data(c)
    {
      if |body| >= BODY_LIMIT {
        Fail(TooLarge);
        return;
      }
      body := body + [c];
      if phase != Close {
        if remaining > 0 {
          remaining := remaining - 1;
          if remaining == 0 {
            phase := if phase == Fixed then Done else ChunkCr;
          }
        }
      }
    }

    method LineFeed()
      modifies this
      ensures D() == old(D()).LineFeed()
    {
      cr := NoCr;
      EndLine();
      assert Look(true);
      if error == NoError {
        line := "";
      }
    }

    method Text(c: char)
      modifies this
      ensures D() == old(D()).Text(c)
    {
      headerBytes := headerBytes + 1;
      if headerBytes > HEADER_LIMIT {
        Fail(TooLarge);
        return;
      }
      if cr == SawCr {
        if c != '\n' {
          Fail(Malformed);
          return;
        }
        LineFeed();
      } else if c == '\r' {
        cr := SawCr;
      } else if (c < ' ' && c != '\t') || |line| + 1 >= LINE_SIZE {
        Fail(Malformed);
      } else {
        line := line + [c];
      }
    }

    /** Take in some more bytes. */
    method Feed(data: string) returns (ok: bool)
      modifies this
      ensures D() == old(D()).Feed(data) && ok == (error == NoError)
    {
      if error != NoError {
        FailedStays(D(), data, 0);
        return false;
      }
      for i := 0 to |data|
        invariant D() == old(D()).Feed(data[..i]) && error == NoError
      {
        var c := data[i];
        assert data[..i + 1][..i] == data[..i];
        if phase == Done {
          Fail(Malformed);
        } else if phase == Fixed || phase == Close || phase == ChunkData {
          Data(c);
        } else if phase == ChunkCr {
          if c != '\r' {
            Fail(Malformed);
          } else {
            phase := ChunkLf;
          }
        } else if phase == ChunkLf {
          if c != '\n' {
            Fail(Malformed);
          } else {
            phase := ChunkSize;
          }
        } else {
          Text(c);
        }
        if error != NoError {
          FailedStays(old(D()), data, i + 1);
          return false;
        }
      }
      assert data[..|data|] == data;
      ok := true;
    }

    method Eof() returns (ok: bool)
      modifies this`phase, this`error
      ensures D() == old(D()).Eof() && ok == (error == NoError)
    {
      if phase == Close {
        phase := Done;
      }
      if phase != Done {
        Fail(Malformed);
        return false;
      }
      ok := error == NoError;
    }
  }

  lemma {:induction false} RefusalStays(s: string, n: nat)
    requires n <= |s|
    ensures HexNumber(s[..n]).Bad? ==> HexNumber(s) == HexNumber(s[..n])
    ensures DecimalNumber(s[..n]).Bad? ==> DecimalNumber(s) == DecimalNumber(s[..n])
    decreases |s|
  {
    if n < |s| {
      RefusalStays(s[..|s| - 1], n);
      assert s[..|s| - 1][..n] == s[..n];
    } else {
      assert s[..n] == s;
    }
  }

  /** A failed decoder takes in nothing. */
  lemma {:induction false} FailedStays(d: Decoder, data: string, n: nat)
    requires n <= |data| && d.Feed(data[..n]).error != NoError
    ensures d.Feed(data) == d.Feed(data[..n])
    decreases |data|
  {
    if n < |data| {
      assert data[..|data| - 1][..n] == data[..n];
      FailedStays(d, data[..|data| - 1], n);
    } else {
      assert data[..n] == data;
    }
  }
}
