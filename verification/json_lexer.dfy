/** The lexical part of components/controller/json.cpp: white space, strings, numbers and words. */
module JsonLexer {
  import opened Wrappers
  import opened JsonSyntax

  /** A part read up to `pos`. */
  datatype Read<+T> = Fail | Done(part: T, pos: nat)

  function SkipSpace(s: string, pos: nat): (p: nat)
    requires pos <= |s|
    ensures pos <= p <= |s|
    decreases |s| - pos
  {
    if pos < |s| && IsSpace(s[pos]) then SkipSpace(s, pos + 1) else pos
  }

  function SkipDigits(s: string, pos: nat): (p: nat)
    requires pos <= |s|
    ensures pos <= p <= |s|
    decreases |s| - pos
  {
    if pos < |s| && IsDigit(s[pos]) then SkipDigits(s, pos + 1) else pos
  }

  predicate HexAt(s: string, pos: nat, n: nat) {
    pos + n <= |s| && forall i | pos <= i < pos + n :: IsHex(s[i])
  }

  /** The closing quote of a string whose text starts at `pos`. */
  function Close(s: string, pos: nat): (p: Option<nat>)
    requires pos <= |s|
    ensures p.Some? ==> pos <= p.value < |s| && s[p.value] == '\"'
    decreases |s| - pos
  {
    if pos == |s| then None
    else if s[pos] == '\"' then Some(pos)
    else if s[pos] < ' ' then None
    else if s[pos] != '\\' then Close(s, pos + 1)
    else if pos + 1 == |s| then None
    else if s[pos + 1] == 'u' then if HexAt(s, pos + 2, 4) then Close(s, pos + 6) else None
    else if IsEscape(s[pos + 1]) then Close(s, pos + 2)
    else None
  }

  function ReadFraction(s: string, pos: nat): (r: Read<Fraction>)
    requires pos <= |s|
    ensures r.Done? ==> pos <= r.pos <= |s|
  {
    if pos == |s| || s[pos] != '.' then Done(Whole, pos)
    else
      var p := SkipDigits(s, pos + 1);
      if p == pos + 1 then Fail else Done(Point(s[pos + 1..p]), p)
  }

  function ReadExponent(s: string, pos: nat): (r: Read<Exponent>)
    requires pos <= |s|
    ensures r.Done? ==> pos <= r.pos <= |s|
  {
    if pos == |s| || (s[pos] != 'e' && s[pos] != 'E') then Done(NoExponent, pos)
    else
      var q := if pos + 1 < |s| && (s[pos + 1] == '+' || s[pos + 1] == '-') then pos + 2 else pos + 1;
      var p := SkipDigits(s, q);
      if p == q then Fail else Done(Power(s[pos], s[pos + 1..q], s[q..p]), p)
  }

  function ReadNumeral(s: string, pos: nat): (r: Read<Numeral>)
    requires pos < |s|
    ensures r.Done? ==> pos < r.pos <= |s|
  {
    var q := if s[pos] == '-' then pos + 1 else pos;
    if q == |s| || !IsDigit(s[q]) then Fail
    else
      var p := if s[q] == '0' then q + 1 else SkipDigits(s, q);
      match ReadFraction(s, p)
      case Fail => Fail
      case Done(f, p1) =>
        match ReadExponent(s, p1)
        case Fail => Fail
        case Done(e, p2) => Done(Numeral(q > pos, s[q..p], f, e), p2)
  }

  function ReadWord(s: string, pos: nat): (r: Read<Word>)
    requires pos < |s|
    ensures r.Done? ==> pos < r.pos <= |s|
  {
    var w := if s[pos] == 't' then True else if s[pos] == 'f' then False else Null;
    var n := |Spelling(w)|;
    if pos + n <= |s| && s[pos..pos + n] == Spelling(w) then Done(w, pos + n) else Fail
  }

  function ReadScalar(s: string, pos: nat): (r: Read<Tree>)
    requires pos < |s|
    ensures r.Done? ==> pos < r.pos <= |s|
  {
    if s[pos] == '\"' then
      match Close(s, pos + 1)
      case None => Fail
      case Some(p) => Done(Str(s[pos + 1..p]), p + 1)
    else if s[pos] == 't' || s[pos] == 'f' || s[pos] == 'n' then
      match ReadWord(s, pos) case Fail => Fail case Done(w, p) => Done(Lit(w), p)
    else
      match ReadNumeral(s, pos) case Fail => Fail case Done(n, p) => Done(Num(n), p)
  }
}
