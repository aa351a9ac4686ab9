/** Following a tree over a text: where the tree ends if the text has it, within the limits, at a given
    place. `Scan` is the relation between trees and texts that the reader is proved against. */
module JsonScan {
  import opened Wrappers
  import opened JsonSyntax

  type Place = Option<nat>

  predicate Same(s: string, pos: nat, text: string, i: nat)
    requires pos + |text| <= |s| && i < |text|
  {
    s[pos + i] == text[i]
  }

  /** Kept behind `Same` so that single characters are looked at only where a proof says so. */
  predicate At(s: string, pos: nat, text: string) {
    pos + |text| <= |s| && forall i: nat {:trigger Same(s, pos, text, i)} | i < |text| :: Same(s, pos, text, i)
  }

  lemma CharAt(s: string, pos: nat, text: string, i: nat)
    requires At(s, pos, text) && i < |text|
    ensures s[pos + i] == text[i]
  {
    assert Same(s, pos, text, i);
  }

  lemma AtSlice(s: string, pos: nat, text: string, i: nat, j: nat)
    requires At(s, pos, text) && i <= j <= |text|
    ensures At(s, pos + i, text[i..j])
  {
    var p, w := pos + i, text[i..j];
    forall k: nat | k < |w|
      ensures Same(s, p, w, k)
    {
      CharAt(s, pos, text, i + k);
    }
  }

  lemma AtParts(s: string, pos: nat, a: string, b: string)
    ensures At(s, pos, a + b) <==> At(s, pos, a) && At(s, pos + |a|, b)
  {
    if At(s, pos, a + b) {
      AtSlice(s, pos, a + b, 0, |a|);
      AtSlice(s, pos, a + b, |a|, |a + b|);
      assert (a + b)[0..|a|] == a && (a + b)[|a|..|a + b|] == b;
    } else if At(s, pos, a) && At(s, pos + |a|, b) {
      var w := a + b;
      forall k: nat | k < |w|
        ensures Same(s, pos, w, k)
      {
        if k < |a| {
          CharAt(s, pos, a, k);
        } else {
          CharAt(s, pos + |a|, b, k - |a|);
        }
      }
    }
  }

  function Past(s: string, p: Place, text: string): Place {
    if p.Some? && At(s, p.value, text) then Some(p.value + |text|) else None
  }

  function PastChar(s: string, p: Place, c: char): Place {
    if p.Some? && p.value < |s| && s[p.value] == c then Some(p.value + 1) else None
  }

  function PastSpace(s: string, p: Place, w: string): Place {
    if Space(w) then Past(s, p, w) else None
  }

  function PastString(s: string, p: Place, raw: string): Place {
    if Body(raw) then PastChar(s, Past(s, PastChar(s, p, '\"'), raw), '\"') else None
  }

  function PastNumeral(s: string, p: Place, n: Numeral): Place {
    if !n.Valid() then None
    else Past(s, Past(s, Past(s, Past(s, p, n.Sign()), n.whole), n.fraction.Text()), n.exponent.Text())
  }

  /** Past the comma before every entry but the first, and the white space after it. */
  function PastComma(s: string, p: Place, first: bool, gap: string): Place {
    if first then if gap == "" then p else None else PastSpace(s, PastChar(s, p, ','), gap)
  }

  function Scan(s: string, p: Place, t: Tree, depth: nat): Place
    decreases t
  {
    if depth > MAX_DEPTH then None
    else
      match t
      case Obj(lead, ms) =>
        PastChar(s, ScanMembers(s, PastSpace(s, PastChar(s, p, '{'), lead), ms, depth + 1), '}')
      case Arr(lead, xs) =>
        PastChar(s, ScanItems(s, PastSpace(s, PastChar(s, p, '['), lead), xs, depth + 1), ']')
      case Str(raw) => PastString(s, p, raw)
      case Num(n) => PastNumeral(s, p, n)
      case Lit(w) => Past(s, p, Spelling(w))
  }

  function ScanMembers(s: string, p: Place, ms: Members, depth: nat): Place
    decreases ms
  {
    match ms
    case NoMembers => p
    case Member(init, gap, key, beforeColon, afterColon, val, after) =>
      var k := PastComma(s, ScanMembers(s, p, init, depth), init.NoMembers?, gap);
      if depth > MAX_DEPTH || '\\' in key || HasKey(init, key) then None
      else
        var c := PastChar(s, PastSpace(s, PastString(s, k, key), beforeColon), ':');
        PastSpace(s, Scan(s, PastSpace(s, c, afterColon), val, depth), after)
  }

  function ScanItems(s: string, p: Place, xs: Items, depth: nat): Place
    decreases xs
  {
    match xs
    case NoItems => p
    case Item(init, gap, val, after) =>
      PastSpace(s, Scan(s, PastComma(s, ScanItems(s, p, init, depth), init.NoItems?, gap), val, depth), after)
  }
}
