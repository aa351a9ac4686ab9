/** The lexer reads exactly what a text spells: strings, numbers and words, maximal and complete. */
module JsonLexical {
  import opened Wrappers
  import opened JsonSyntax
  import opened JsonLexer
  import opened JsonScan

  lemma PastSlice(s: string, i: nat, j: nat)
    requires i <= j <= |s|
    ensures Past(s, Some(i), s[i..j]) == Some(j)
  {
  }

  lemma {:induction false} SkipSpaceSound(s: string, pos: nat)
    requires pos <= |s|
    ensures PastSpace(s, Some(pos), s[pos..SkipSpace(s, pos)]) == Some(SkipSpace(s, pos))
    ensures SkipSpace(s, pos) < |s| ==> !IsSpace(s[SkipSpace(s, pos)])
    ensures SkipSpace(s, SkipSpace(s, pos)) == SkipSpace(s, pos)
    decreases |s| - pos
  {
    if pos < |s| && IsSpace(s[pos]) {
      SkipSpaceSound(s, pos + 1);
      var w, rest := s[pos..SkipSpace(s, pos)], s[pos + 1..SkipSpace(s, pos)];
      forall i: nat | i < |w|
        ensures SpaceAt(w, i)
      {
        if i > 0 {
          assert w[i] == rest[i - 1] && SpaceAt(rest, i - 1);
        }
      }
    }
  }

  lemma {:induction false} SkipDigitsSound(s: string, pos: nat)
    requires pos <= |s|
    ensures forall i | pos <= i < SkipDigits(s, pos) :: IsDigit(s[i])
    ensures SkipDigits(s, pos) < |s| ==> !IsDigit(s[SkipDigits(s, pos)])
    decreases |s| - pos
  {
    if pos < |s| && IsDigit(s[pos]) {
      SkipDigitsSound(s, pos + 1);
    }
  }

  lemma {:induction false} CloseSound(s: string, pos: nat)
    requires pos <= |s| && Close(s, pos).Some?
    ensures Body(s[pos..Close(s, pos).value])
    decreases |s| - pos
  {
    var p := Close(s, pos).value;
    var raw := s[pos..p];
    if s[pos] != '\"' {
      if s[pos] != '\\' {
        CloseSound(s, pos + 1);
        assert raw[1..] == s[pos + 1..p];
      } else if s[pos + 1] == 'u' {
        CloseSound(s, pos + 6);
        assert raw[6..] == s[pos + 6..p];
        assert raw[2] == s[pos + 2] && raw[3] == s[pos + 3] && raw[4] == s[pos + 4] && raw[5] == s[pos + 5];
      } else {
        CloseSound(s, pos + 2);
        assert raw[2..] == s[pos + 2..p];
      }
    }
  }

  lemma ThreeParts(s: string, i: nat, j: nat, k: nat)
    requires i < j <= k <= |s|
    ensures [s[i]] + s[i + 1..j] + s[j..k] == s[i..k]
  {
    assert [s[i]] + s[i + 1..j] == s[i..j];
    assert s[i..j] + s[j..k] == s[i..k];
  }

  lemma FractionSound(s: string, pos: nat)
    requires pos <= |s| && ReadFraction(s, pos).Done?
    ensures var r := ReadFraction(s, pos); r.part.Valid() && Past(s, Some(pos), r.part.Text()) == Some(r.pos)
  {
    if pos < |s| && s[pos] == '.' {
      var p := SkipDigits(s, pos + 1);
      SkipDigitsSound(s, pos + 1);
      PastSlice(s, pos, p);
      assert "." + s[pos + 1..p] == s[pos..p];
    }
  }

  lemma ExponentSound(s: string, pos: nat)
    requires pos <= |s| && ReadExponent(s, pos).Done?
    ensures var r := ReadExponent(s, pos); r.part.Valid() && Past(s, Some(pos), r.part.Text()) == Some(r.pos)
  {
    if pos < |s| && (s[pos] == 'e' || s[pos] == 'E') {
      var q := if pos + 1 < |s| && (s[pos + 1] == '+' || s[pos + 1] == '-') then pos + 2 else pos + 1;
      var p := SkipDigits(s, q);
      SkipDigitsSound(s, q);
      PastSlice(s, pos, p);
      ThreeParts(s, pos, q, p);
    }
  }

  lemma WholeSound(s: string, q: nat)
    requires q < |s| && IsDigit(s[q])
    ensures var p := if s[q] == '0' then q + 1 else SkipDigits(s, q);
            && p <= |s| && Digits(s[q..p]) && (s[q..p][0] == '0' ==> |s[q..p]| == 1)
            && Past(s, Some(q), s[q..p]) == Some(p)
  {
    SkipDigitsSound(s, q);
    PastSlice(s, q, SkipDigits(s, q));
  }

  lemma NumeralSound(s: string, pos: nat)
    requires pos < |s| && ReadNumeral(s, pos).Done?
    ensures PastNumeral(s, Some(pos), ReadNumeral(s, pos).part) == Some(ReadNumeral(s, pos).pos)
  {
    var q := if s[pos] == '-' then pos + 1 else pos;
    var p := if s[q] == '0' then q + 1 else SkipDigits(s, q);
    var f := ReadFraction(s, p);
    var x := ReadExponent(s, f.pos);
    var n := Numeral(s[pos] == '-', s[q..p], f.part, x.part);
    assert ReadNumeral(s, pos) == Done(n, x.pos);
    assert Past(s, Some(pos), n.Sign()) == Some(q) by { PastSlice(s, pos, q); }
    WholeSound(s, q);
    FractionSound(s, p);
    ExponentSound(s, f.pos);
  }

  lemma ScalarSound(s: string, pos: nat, depth: nat)
    requires pos < |s| && ReadScalar(s, pos).Done? && depth <= MAX_DEPTH
    ensures Scan(s, Some(pos), ReadScalar(s, pos).part, depth) == Some(ReadScalar(s, pos).pos)
    ensures Count(ReadScalar(s, pos).part) == 1
  {
    if s[pos] == '\"' {
      CloseSound(s, pos + 1);
      PastSlice(s, pos + 1, Close(s, pos + 1).value);
    } else if s[pos] == 't' || s[pos] == 'f' || s[pos] == 'n' {
      PastSlice(s, pos, ReadScalar(s, pos).pos);
    } else {
      NumeralSound(s, pos);
    }
  }

  lemma SliceIs(s: string, i: nat, w: string)
    requires At(s, i, w)
    ensures s[i..i + |w|] == w
  {
    forall k | 0 <= k < |w|
      ensures s[i + k] == w[k]
    {
      CharAt(s, i, w, k);
    }
  }

  lemma {:induction false} SkipSpaceComplete(s: string, i: nat, j: nat)
    requires i <= j <= |s| && (forall k | i <= k < j :: IsSpace(s[k])) && (j < |s| ==> !IsSpace(s[j]))
    ensures SkipSpace(s, i) == j
    decreases j - i
  {
    if i < j {
      SkipSpaceComplete(s, i + 1, j);
    }
  }

  lemma {:induction false} SkipDigitsComplete(s: string, i: nat, j: nat)
    requires i <= j <= |s| && (forall k | i <= k < j :: IsDigit(s[k])) && (j < |s| ==> !IsDigit(s[j]))
    ensures SkipDigits(s, i) == j
    decreases j - i
  {
    if i < j {
      SkipDigitsComplete(s, i + 1, j);
    }
  }

  /** White space is skipped up to the first other character. */
  lemma GapComplete(s: string, i: nat, w: string, j: nat)
    requires PastSpace(s, Some(i), w) == Some(j) && (j < |s| ==> !IsSpace(s[j]))
    ensures SkipSpace(s, i) == j && s[i..j] == w
  {
    SliceIs(s, i, w);
    forall k | i <= k < j
      ensures IsSpace(s[k])
    {
      CharAt(s, i, w, k - i);
      assert SpaceAt(w, k - i);
    }
    SkipSpaceComplete(s, i, j);
  }

  lemma RunComplete(s: string, i: nat, w: string, j: nat)
    requires Past(s, Some(i), w) == Some(j) && Digits(w) && (j < |s| ==> !IsDigit(s[j]))
    ensures SkipDigits(s, i) == j && s[i..j] == w
  {
    SliceIs(s, i, w);
    forall k | i <= k < j
      ensures IsDigit(s[k])
    {
      CharAt(s, i, w, k - i);
    }
    SkipDigitsComplete(s, i, j);
  }

  lemma {:induction false} CloseComplete(s: string, pos: nat, raw: string)
    requires Body(raw) && At(s, pos, raw) && pos + |raw| < |s| && s[pos + |raw|] == '\"'
    ensures Close(s, pos) == Some(pos + |raw|)
    decreases |raw|
  {
    if raw != "" {
      CharAt(s, pos, raw, 0);
      var n := if raw[0] != '\\' then 1 else if raw[1] == 'u' then 6 else 2;
      assert Body(raw[n..]);
      AtSlice(s, pos, raw, n, |raw|);
      assert raw[n..|raw|] == raw[n..];
      if n > 1 {
        CharAt(s, pos, raw, 1);
      }
      if n == 6 {
        CharAt(s, pos, raw, 2);
        CharAt(s, pos, raw, 3);
        CharAt(s, pos, raw, 4);
        CharAt(s, pos, raw, 5);
      }
      CloseComplete(s, pos + n, raw[n..]);
    }
  }

  /** No number goes on here. */
  predicate Stops(s: string, e: nat) { e < |s| ==> !IsDigit(s[e]) && s[e] != '.' && s[e] != 'e' && s[e] != 'E' }

  lemma FractionComplete(s: string, pos: nat, f: Fraction, e: nat)
    requires f.Valid() && Past(s, Some(pos), f.Text()) == Some(e)
    requires e < |s| ==> !IsDigit(s[e]) && s[e] != '.'
    ensures pos <= |s| && ReadFraction(s, pos) == Done(f, e)
  {
    if f.Point? {
      AtParts(s, pos, ".", f.digits);
      CharAt(s, pos, ".", 0);
      RunComplete(s, pos + 1, f.digits, e);
    }
  }

  lemma ExponentComplete(s: string, pos: nat, x: Exponent, e: nat)
    requires x.Valid() && Past(s, Some(pos), x.Text()) == Some(e) && Stops(s, e)
    ensures pos <= |s| && ReadExponent(s, pos) == Done(x, e)
  {
    if x.Power? {
      var n := 1 + |x.sign|;
      AtParts(s, pos, [x.marker] + x.sign, x.digits);
      AtParts(s, pos, [x.marker], x.sign);
      CharAt(s, pos, [x.marker], 0);
      CharAt(s, pos + n, x.digits, 0);
      SliceIs(s, pos + 1, x.sign);
      if x.sign != "" {
        CharAt(s, pos + 1, x.sign, 0);
      }
      RunComplete(s, pos + n, x.digits, e);
    }
  }

  lemma WholeComplete(s: string, q: nat, w: string, p: nat)
    requires Past(s, Some(q), w) == Some(p) && Digits(w) && (w[0] == '0' ==> |w| == 1)
    requires p < |s| && IsDigit(s[p]) ==> w[0] == '0'
    ensures q < |s| && IsDigit(s[q]) && (if s[q] == '0' then q + 1 else SkipDigits(s, q)) == p && s[q..p] == w
  {
    CharAt(s, q, w, 0);
    SliceIs(s, q, w);
    if w[0] != '0' {
      RunComplete(s, q, w, p);
    }
  }

  lemma NumeralComplete(s: string, pos: nat, n: Numeral, e: nat)
    requires PastNumeral(s, Some(pos), n) == Some(e) && Stops(s, e)
    ensures pos < |s| && ReadNumeral(s, pos) == Done(n, e) && (s[pos] == '-' || IsDigit(s[pos]))
  {
    var q := Past(s, Some(pos), n.Sign()).value;
    var p := Past(s, Some(q), n.whole).value;
    var f := Past(s, Some(p), n.fraction.Text()).value;
    NotDigit(s, f, n.exponent.Text(), e);
    NotDigit(s, p, n.fraction.Text(), f);
    FractionComplete(s, p, n.fraction, f);
    ExponentComplete(s, f, n.exponent, e);
    WholeComplete(s, q, n.whole, p);
    if n.minus {
      CharAt(s, pos, n.Sign(), 0);
    }
  }

  /** Where a fraction or an exponent starts, or ends without being there, no digit stands. */
  lemma NotDigit(s: string, p: nat, text: string, e: nat)
    requires Past(s, Some(p), text) == Some(e)
    requires text != "" ==> text[0] == '.' || text[0] == 'e' || text[0] == 'E'
    ensures text != "" ==> p < |s| && s[p] == text[0]
    ensures text == "" ==> p == e
  {
    if text != "" {
      CharAt(s, p, text, 0);
    }
  }

  lemma ScalarComplete(s: string, pos: nat, t: Tree, depth: nat, e: nat)
    requires Scan(s, Some(pos), t, depth) == Some(e) && !t.Obj? && !t.Arr? && (t.Num? ==> Stops(s, e))
    ensures pos < |s| && ReadScalar(s, pos) == Done(t, e) && !IsSpace(s[pos]) && s[pos] != '{' && s[pos] != '['
  {
    match t
    case Str(raw) =>
      CloseComplete(s, pos + 1, raw);
      SliceIs(s, pos + 1, raw);
    case Num(n) => NumeralComplete(s, pos, n, e);
    case Lit(w) =>
      CharAt(s, pos, Spelling(w), 0);
      SliceIs(s, pos, Spelling(w));
  }
}
