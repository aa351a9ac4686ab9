/** The value of a JSON string (RFC 8259, section 7) as UTF-8, and the spellings of a code point. */
module JsonStrings {
  import opened Wrappers
  import opened JsonSyntax

  // ----- UTF-8 (RFC 3629, section 3) -----

  predicate IsScalar(cp: int) { 0 <= cp < 0xD800 || 0xE000 <= cp < 0x11_0000 }

  function Byte(n: int): char
    requires 0 <= n < 0x100
  {
    n as char
  }

  function Utf8(cp: int): string
    requires IsScalar(cp)
  {
    if cp < 0x80 then [Byte(cp)]
    else if cp < 0x800 then [Byte(0xC0 + cp / 64), Byte(0x80 + cp % 64)]
    else if cp < 0x1_0000 then [Byte(0xE0 + cp / 4096), Byte(0x80 + cp / 64 % 64), Byte(0x80 + cp % 64)]
    else [Byte(0xF0 + cp / 0x4_0000), Byte(0x80 + cp / 4096 % 64), Byte(0x80 + cp / 64 % 64), Byte(0x80 + cp % 64)]
  }

  /** The code point that starts a text in UTF-8, as section 3 of RFC 3629 reads it. */
  function FirstPoint(s: string): Option<int> {
    if s == "" then None
    else
      var a := s[0] as int;
      if a < 0x80 then Some(a)
      else if 0xC0 <= a < 0xE0 && |s| >= 2 then Some((a - 0xC0) * 64 + (s[1] as int - 0x80))
      else if 0xE0 <= a < 0xF0 && |s| >= 3 then
        Some((a - 0xE0) * 4096 + (s[1] as int - 0x80) * 64 + (s[2] as int - 0x80))
      else if 0xF0 <= a < 0xF8 && |s| >= 4 then
        Some((a - 0xF0) * 0x4_0000 + (s[1] as int - 0x80) * 4096 + (s[2] as int - 0x80) * 64 + (s[3] as int - 0x80))
      else None
  }

  /** The encoding is the right one: it decodes to the code point, and no byte is zero but for NUL. */
  lemma Utf8Decodes(cp: int, rest: string)
    requires IsScalar(cp)
    ensures FirstPoint(Utf8(cp) + rest) == Some(cp)
    ensures NUL in Utf8(cp) <==> cp == 0
  {
    var u := Utf8(cp);
    var s := u + rest;
    assert forall i | 0 <= i < |u| :: s[i] == u[i];
    if 0x800 <= cp < 0x1_0000 {
      assert cp / 64 == cp / 4096 * 64 + cp / 64 % 64;
    } else if 0x1_0000 <= cp {
      assert cp / 64 == cp / 4096 * 64 + cp / 64 % 64;
      assert cp / 4096 == cp / 0x4_0000 * 64 + cp / 4096 % 64;
    }
  }

  // ----- What the text of a string stands for -----

  function HexDigit(c: char): (n: int)
    requires IsHex(c)
    ensures 0 <= n < 16
  {
    if IsDigit(c) then c as int - '0' as int
    else if 'a' <= c <= 'f' then c as int - 'a' as int + 10
    else c as int - 'A' as int + 10
  }

  predicate Hex4At(raw: string, p: nat) {
    p + 4 <= |raw| && IsHex(raw[p]) && IsHex(raw[p + 1]) && IsHex(raw[p + 2]) && IsHex(raw[p + 3])
  }

  function Hex4(raw: string, p: nat): (n: int)
    requires Hex4At(raw, p)
    ensures 0 <= n < 0x1_0000
  {
    ((HexDigit(raw[p]) * 16 + HexDigit(raw[p + 1])) * 16 + HexDigit(raw[p + 2])) * 16 + HexDigit(raw[p + 3])
  }

  predicate High(n: int) { 0xD800 <= n < 0xDC00 }

  predicate Low(n: int) { 0xDC00 <= n < 0xE000 }

  function Pair(high: int, low: int): (cp: int)
    requires High(high) && Low(low)
    ensures 0x1_0000 <= cp < 0x11_0000
  {
    0x1_0000 + (high - 0xD800) * 0x400 + (low - 0xDC00)
  }

  function Simple(c: char): char {
    if c == 'b' then 8 as char else if c == 'f' then 12 as char else if c == 'n' then 10 as char
    else if c == 'r' then 13 as char else if c == 't' then 9 as char else c
  }

  /** One element of a string's text: how long it is and the bytes it stands for. */
  datatype Piece = Piece(len: nat, bytes: string)

  function FirstPiece(raw: string): (r: Option<Piece>)
    requires raw != "" && Body(raw)
    ensures r.Some? ==> 0 < r.value.len <= |raw| && Body(raw[r.value.len..])
  {
    if raw[0] != '\\' then Some(Piece(1, [raw[0]]))
    else if raw[1] != 'u' then Some(Piece(2, [Simple(raw[1])]))
    else
      var n := Hex4(raw, 2);
      if High(n) then
        if 12 <= |raw| && raw[6] == '\\' && raw[7] == 'u' && Low(LowAfter(raw))
        then Some(Piece(12, Utf8(Pair(n, LowAfter(raw))))) else None
      else if Low(n) then None
      else Some(Piece(6, Utf8(n)))
  }

  /** The second unit of a surrogate pair. */
  function LowAfter(raw: string): (n: int)
    requires 12 <= |raw| && raw[0] == '\\' && raw[1] == 'u' && raw[6] == '\\' && raw[7] == 'u' && Body(raw)
    ensures Hex4At(raw, 8) && Body(raw[12..])
  {
    var rest := raw[6..];
    assert Body(rest) && rest[0] == raw[6] && rest[1] == raw[7];
    assert rest[2] == raw[8] && rest[3] == raw[9] && rest[4] == raw[10] && rest[5] == raw[11];
    assert rest[6..] == raw[12..];
    Hex4(raw, 8)
  }

  /** The UTF-8 bytes of the value, unless a surrogate stands alone. */
  function Bytes(raw: string): Option<string>
    requires Body(raw)
    decreases |raw|
  {
    if raw == "" then Some("")
    else
      var p := FirstPiece(raw);
      if p.None? then None
      else
        var rest := Bytes(raw[p.value.len..]);
        if rest.None? then None else Some(p.value.bytes + rest.value)
  }

  // ----- Spellings -----

  /** The four hexadecimal digits of a number below 0x10000, in either case. */
  predicate Spells4(piece: string, p: nat, n: int) { Hex4At(piece, p) && Hex4(piece, p) == n }

  /** `piece` is one of the ways to write the code point `cp` in a string. */
  predicate Spells(piece: string, cp: int)
    requires IsScalar(cp)
  {
    || (cp >= 0x20 && cp != '\"' as int && cp != '\\' as int && piece == Utf8(cp))
    || (|piece| == 2 && piece[0] == '\\' && IsSimpleEscape(piece[1]) && cp == Simple(piece[1]) as int)
    || (|piece| == 6 && piece[..2] == "\\u" && Spells4(piece, 2, cp))
    || (cp >= 0x1_0000 && |piece| == 12 && piece[..2] == "\\u" && piece[6..8] == "\\u"
        && Spells4(piece, 2, 0xD800 + (cp - 0x1_0000) / 0x400) && Spells4(piece, 8, 0xDC00 + (cp - 0x1_0000) % 0x400))
  }

  function Encode(cps: seq<int>): string
    requires forall i | 0 <= i < |cps| :: IsScalar(cps[i])
  {
    if cps == [] then "" else Utf8(cps[0]) + Encode(cps[1..])
  }

  function Concat(pieces: seq<string>): string {
    if pieces == [] then "" else pieces[0] + Concat(pieces[1..])
  }

  /** However each code point of a value is written, the text is a string's and stands for the UTF-8
      of the value, surrogate pairs included. */
  lemma {:induction false} SpellingsDecode(cps: seq<int>, pieces: seq<string>)
    requires |cps| == |pieces| && (forall i | 0 <= i < |cps| :: IsScalar(cps[i]) && Spells(pieces[i], cps[i]))
    ensures Body(Concat(pieces)) && Bytes(Concat(pieces)) == Some(Encode(cps))
    decreases |cps|
  {
    if cps != [] {
      SpellingsDecode(cps[1..], pieces[1..]);
      PieceDecodes(pieces[0], cps[0], Concat(pieces[1..]));
    }
  }

  lemma PieceDecodes(piece: string, cp: int, rest: string)
    requires IsScalar(cp) && Spells(piece, cp) && Body(rest) && Bytes(rest).Some?
    ensures Body(piece + rest) && Bytes(piece + rest) == Some(Utf8(cp) + Bytes(rest).value)
  {
    var raw := piece + rest;
    if piece == Utf8(cp) && cp >= 0x20 && cp != '\"' as int && cp != '\\' as int {
      RawDecodes(piece, rest, Bytes(rest).value);
      assert Look(true);
    } else {
      assert raw[|piece|..] == rest;
      assert forall i | 0 <= i < |piece| :: raw[i] == piece[i];
      if |piece| == 12 {
        assert piece[0] == piece[..2][0] && piece[1] == piece[..2][1] && piece[6] == piece[6..8][0] && piece[7] == piece[6..8][1];
        var tail := raw[6..];
        assert tail[6..] == rest;
        assert forall i | 0 <= i < 6 :: tail[i] == raw[6 + i];
        assert Hex4(raw, 2) == Hex4(piece, 2) && Hex4(raw, 8) == Hex4(piece, 8);
      } else if |piece| == 6 {
        assert piece[0] == piece[..2][0] && piece[1] == piece[..2][1];
        assert Hex4(raw, 2) == Hex4(piece, 2);
      }
    }
  }

  /** The text `raw` of a string stands for `bytes`. */
  ghost predicate StandsFor(raw: string, bytes: string) {
    forall b {:trigger Look(b)} :: Look(b) ==> Body(raw) && Bytes(raw) == Some(bytes)
  }

  lemma OneRaw(c: char, rest: string, bytes: string)
    requires c >= ' ' && c != '\"' && c != '\\' && StandsFor(rest, bytes)
    ensures StandsFor([c] + rest, [c] + bytes)
  {
    assert Look(true);
    var raw := [c] + rest;
    assert raw[0] == c && raw[1..] == rest;
    assert Body(raw) && FirstPiece(raw) == Some(Piece(1, [c]));
  }

  /** Bytes that are neither controls, quotes nor backslashes stand for themselves. */
  lemma {:induction false} RawDecodes(piece: string, rest: string, bytes: string)
    requires forall i | 0 <= i < |piece| :: piece[i] >= ' ' && piece[i] != '\"' && piece[i] != '\\'
    requires StandsFor(rest, bytes)
    ensures StandsFor(piece + rest, piece + bytes)
    decreases |piece|
  {
    if piece == "" {
      assert piece + rest == rest && piece + bytes == bytes;
    } else {
      var tail := piece[1..];
      RawDecodes(tail, rest, bytes);
      OneRaw(piece[0], tail + rest, tail + bytes);
      assert piece + rest == [piece[0]] + (tail + rest) && piece + bytes == [piece[0]] + (tail + bytes);
    }
  }

  // ----- Decoding in place -----

  function Prepend(done: string, rest: Option<string>): Option<string> {
    if rest.None? then None else Some(done + rest.value)
  }

  lemma EmptyPrepend(rest: Option<string>)
    ensures Prepend("", rest) == rest
  {
    if rest.Some? {
      assert "" + rest.value == rest.value;
    }
  }

  /** The text fits a buffer of `cap` characters as a C string. */
  predicate FitsBuffer(b: Option<string>, cap: nat) { b.Some? && NUL !in b.value && |b.value| < cap }

  lemma NextPiece(raw: string, p: nat, done: string)
    requires p < |raw| && Body(raw[p..])
    ensures var f := FirstPiece(raw[p..]);
            && (f.None? ==> Prepend(done, Bytes(raw[p..])) == None)
            && (f.Some? ==>
                  && p + f.value.len <= |raw| && raw[p..][f.value.len..] == raw[p + f.value.len..]
                  && Prepend(done, Bytes(raw[p..])) == Prepend(done + f.value.bytes, Bytes(raw[p + f.value.len..])))
  {
    var f := FirstPiece(raw[p..]);
    if f.Some? {
      assert raw[p..][f.value.len..] == raw[p + f.value.len..];
      var rest := Bytes(raw[p + f.value.len..]);
      if rest.Some? {
        assert done + (f.value.bytes + rest.value) == done + f.value.bytes + rest.value;
      }
    }
  }

  method Append(dst: string, bytes: string, cap: nat) returns (ok: bool, out: string)
    requires |dst| < cap && NUL !in dst
    ensures ok <==> NUL !in bytes && |dst + bytes| < cap
    ensures ok ==> out == dst + bytes && NUL !in out
  {
    out := dst;
    for i := 0 to |bytes|
      invariant out == dst + bytes[..i] && |out| < cap && NUL !in out && NUL !in bytes[..i]
    {
      if bytes[i] == NUL || |out| + 1 >= cap {
        return false, out;
      }
      out := out + [bytes[i]];
      assert bytes[..i + 1] == bytes[..i] + [bytes[i]];
    }
    assert bytes[..|bytes|] == bytes;
    ok := true;
  }

  method HexValue(raw: string, p: nat) returns (n: int)
    requires Hex4At(raw, p)
    ensures n == Hex4(raw, p)
  {
    n := 0;
    for k := 0 to 4
      invariant k == 0 ==> n == 0
      invariant k == 1 ==> n == HexDigit(raw[p])
      invariant k == 2 ==> n == HexDigit(raw[p]) * 16 + HexDigit(raw[p + 1])
      invariant k == 3 ==> n == (HexDigit(raw[p]) * 16 + HexDigit(raw[p + 1])) * 16 + HexDigit(raw[p + 2])
      invariant k == 4 ==> n == Hex4(raw, p)
    {
      n := n * 16 + HexDigit(raw[p + k]);
    }
  }

  /** The bytes of the piece at `p` and where it ends; nothing if a surrogate stands alone there. */
  method Unescape(raw: string, p: nat) returns (ok: bool, next: nat, bytes: string)
    requires p < |raw| && Body(raw[p..])
    ensures ok <==> FirstPiece(raw[p..]).Some?
    ensures ok ==> next == p + FirstPiece(raw[p..]).value.len && bytes == FirstPiece(raw[p..]).value.bytes
  {
    ghost var rest := raw[p..];
    assert forall i | 0 <= i < |rest| :: rest[i] == raw[p + i];
    var c := raw[p];
    if c != '\\' {
      return true, p + 1, [c];
    }
    c := raw[p + 1];
    if c != 'u' {
      return true, p + 2, [Simple(c)];
    }
    var cp := HexValue(raw, p + 2);
    next := p + 6;
    if 0xD800 <= cp <= 0xDBFF {
      if next + 6 > |raw| || raw[next] != '\\' || raw[next + 1] != 'u' {
        return false, next, [];
      }
      var tail := raw[p..][6..];
      assert forall i | 0 <= i < |tail| :: tail[i] == raw[p + 6 + i];
      var low := HexValue(raw, next + 2);
      if low < 0xDC00 || low > 0xDFFF {
        return false, next, [];
      }
      next := next + 6;
      cp := 0x1_0000 + (cp - 0xD800) * 0x400 + (low - 0xDC00);
    } else if 0xDC00 <= cp <= 0xDFFF {
      return false, next, [];
    }
    return true, next, Utf8(cp);
  }

  /** What is copied so far, and the text from `p` on, make up the value. */
  ghost predicate Copied(raw: string, p: nat, dst: string, cap: nat) {
    && p <= |raw| && |dst| < cap
    && forall b {:trigger Look(b)} :: Look(b) ==>
         Body(raw[p..]) && NUL !in dst && Body(raw) && Bytes(raw) == Prepend(dst, Bytes(raw[p..]))
  }

  lemma NoneCopied(raw: string, cap: nat)
    requires Body(raw) && cap > 0
    ensures Copied(raw, 0, "", cap)
  {
    assert raw[0..] == raw;
    EmptyPrepend(Bytes(raw));
  }

  lemma AllCopied(raw: string, dst: string, cap: nat)
    requires Copied(raw, |raw|, dst, cap) && Body(raw)
    ensures Bytes(raw) == Some(dst) && FitsBuffer(Bytes(raw), cap)
  {
    assert Look(true);
    assert raw[|raw|..] == "" && dst + "" == dst;
  }

  lemma Overflows(dst: string, bytes: string, rest: Option<string>, cap: nat)
    requires NUL in bytes || |dst + bytes| >= cap
    ensures !FitsBuffer(Prepend(dst + bytes, rest), cap)
  {
  }

  /** Copy one character or escape. */
  method CopyPiece(raw: string, p: nat, cap: nat, dst: string) returns (ok: bool, next: nat, out: string)
    requires Body(raw) && p < |raw| && Copied(raw, p, dst, cap)
    ensures ok ==> p < next <= |raw| && Copied(raw, next, out, cap)
    ensures !ok ==> !FitsBuffer(Bytes(raw), cap)
  {
    assert Look(true);
    NextPiece(raw, p, dst);
    var bytes;
    out := dst;
    ok, next, bytes := Unescape(raw, p);
    if ok {
      ok, out := Append(dst, bytes, cap);
      if !ok {
        Overflows(dst, bytes, Bytes(raw[next..]), cap);
      }
    }
  }

  /** Copy the value of a string's text as a C string into a buffer of `cap` characters. */
  method Decode(raw: string, cap: nat) returns (ok: bool, dst: string)
    requires Body(raw) && cap > 0
    ensures ok <==> FitsBuffer(Bytes(raw), cap)
    ensures ok ==> Some(dst) == Bytes(raw)
  {
    dst, ok := "", true;
    var p := 0;
    NoneCopied(raw, cap);
    while p < |raw|
      invariant p <= |raw| && Copied(raw, p, dst, cap)
      decreases |raw| - p
    {
      var next, out;
      ok, next, out := CopyPiece(raw, p, cap, dst);
      if !ok {
        return;
      }
      dst, p := out, next;
    }
    AllCopied(raw, dst, cap);
  }
}
