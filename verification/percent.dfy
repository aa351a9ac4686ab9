/** `url_encode` of components/controller/protocol.cpp:220-231: percent-encoding (RFC 3986, section
    2.1) into a buffer, for the body of a form. */
module Percent {
  import opened Wrappers

  /** Texts whose characters are bytes. */
  predicate IsBytes(s: string) { forall i | 0 <= i < |s| :: s[i] as int < 0x100 }

  predicate Plain(c: char) {
    'a' <= c <= 'z' || 'A' <= c <= 'Z' || '0' <= c <= '9' || c == '-' || c == '_' || c == '.' || c == '~'
  }

  function HexDigit(n: int): (c: char)
    requires 0 <= n < 16
    ensures '0' <= c <= '9' || 'A' <= c <= 'F'
  {
    if n < 10 then ('0' as int + n) as char else ('A' as int + n - 10) as char
  }

  function HexValue(c: char): Option<int> {
    if '0' <= c <= '9' then Some(c as int - '0' as int)
    else if 'A' <= c <= 'F' then Some(c as int - 'A' as int + 10)
    else None
  }

  function Piece(c: char): string
    requires c as int < 0x100
  {
    if Plain(c) then [c] else ['%', HexDigit(c as int / 16), HexDigit(c as int % 16)]
  }

  function Encoded(s: string): string
    requires IsBytes(s)
  {
    if s == "" then "" else Encoded(s[..|s| - 1]) + Piece(s[|s| - 1])
  }

  /** How a form decoder reads such a text, if it is one. */
  function Decoded(t: string): Option<string> {
    if t == "" then Some("")
    else if t[0] == '%' then
      if |t| < 3 || HexValue(t[1]).None? || HexValue(t[2]).None? then None
      else
        var rest := Decoded(t[3..]);
        if rest.None? then None
        else Some([(HexValue(t[1]).value * 16 + HexValue(t[2]).value) as char] + rest.value)
    else if !Plain(t[0]) then None
    else
      var rest := Decoded(t[1..]);
      if rest.None? then None else Some([t[0]] + rest.value)
  }

  lemma HexBack(n: int)
    requires 0 <= n < 16
    ensures HexValue(HexDigit(n)) == Some(n)
  {
  }

  lemma PieceBack(c: char, rest: string, out: string) returns (t: string)
    requires c as int < 0x100 && Decoded(rest) == Some(out)
    ensures t == Piece(c) + rest && Decoded(t) == Some([c] + out)
  {
    t := Piece(c) + rest;
    if Plain(c) {
      assert t[1..] == rest;
    } else {
      HexBack(c as int / 16);
      HexBack(c as int % 16);
      assert t[3..] == rest;
    }
  }

  lemma {:induction false} Back(s: string, rest: string, out: string) returns (t: string)
    requires IsBytes(s) && Decoded(rest) == Some(out)
    ensures t == Encoded(s) + rest && Decoded(t) == Some(s + out)
    decreases |s|
  {
    if s == "" {
      t := rest;
      assert s + out == out;
    } else {
      var init, c := s[..|s| - 1], s[|s| - 1];
      var u := PieceBack(c, rest, out);
      t := Back(init, u, [c] + out);
      assert init + ([c] + out) == s + out;
    }
  }

  /** What is sent is read back as what was encoded. */
  lemma EncodedDecodes(s: string)
    requires IsBytes(s)
    ensures Decoded(Encoded(s)) == Some(s)
  {
    var t := Back(s, "", "");
    assert t == Encoded(s) && s + "" == s;
  }

  /** Only unreserved characters and escapes are sent: nothing that could end a field of the form. */
  lemma {:induction false} OnlySafe(s: string, i: nat)
    requires IsBytes(s) && i < |Encoded(s)|
    ensures Plain(Encoded(s)[i]) || Encoded(s)[i] == '%'
    decreases |s|
  {
    var init := Encoded(s[..|s| - 1]);
    if i < |init| {
      OnlySafe(s[..|s| - 1], i);
    }
  }

  lemma {:induction false} PrefixShorter(s: string, n: nat)
    requires IsBytes(s) && n <= |s|
    ensures |Encoded(s[..n])| <= |Encoded(s)|
    decreases |s|
  {
    if n < |s| {
      PrefixShorter(s[..|s| - 1], n);
      assert s[..|s| - 1][..n] == s[..n];
    } else {
      assert s[..n] == s;
    }
  }

  /** Encode into a buffer of `cap` characters, its terminator included: the length, or zero. */
  method UrlEncode(s: string, cap: nat) returns (n: nat, out: string)
    requires IsBytes(s)
    ensures |Encoded(s)| < cap ==> n == |Encoded(s)| && out == Encoded(s)
    ensures |Encoded(s)| >= cap ==> n == 0
  {
    n, out := 0, "";
    for i := 0 to |s|
      invariant out == Encoded(s[..i]) && n == |out|
      invariant cap > 0 ==> n < cap
    {
      var c := s[i];
      assert s[..i + 1][..i] == s[..i];
      PrefixShorter(s, i + 1);
      if n + (if Plain(c) then 1 else 3) >= cap {
        return 0, "";
      }
      if Plain(c) {
        out := out + [c];
      } else {
        out := out + ['%', HexDigit(c as int / 16), HexDigit(c as int % 16)];
      }
      n := |out|;
    }
    assert s[..|s|] == s;
    if n >= cap {
      return 0, "";
    }
  }
}
