/** The language: a text is parsed exactly when it is the rendering of a tree, and of which one. */
module JsonText {
  import opened Wrappers
  import opened JsonSyntax
  import opened JsonLexer
  import opened JsonScan
  import opened JsonLexical
  import opened JsonLists
  import opened JsonMachine
  import opened JsonSound
  import opened JsonComplete

  // ----- Following a tree is matching its rendering -----

  lemma PastCat(s: string, p: Place, a: string, b: string)
    ensures Past(s, Past(s, p, a), b) == Past(s, p, a + b)
  {
    if p.Some? {
      AtParts(s, p.value, a, b);
    }
  }

  lemma PastCharIs(s: string, p: Place, c: char)
    ensures PastChar(s, p, c) == Past(s, p, [c])
  {
    if p.Some? && At(s, p.value, [c]) {
      CharAt(s, p.value, [c], 0);
    }
  }

  lemma StringIsText(s: string, p: Place, raw: string)
    ensures PastString(s, p, raw) == if Body(raw) then Past(s, p, "\"" + raw + "\"") else None
  {
    PastCharIs(s, p, '\"');
    PastCat(s, p, "\"", raw);
    PastCharIs(s, Past(s, p, "\"" + raw), '\"');
    PastCat(s, p, "\"" + raw, "\"");
  }

  lemma NumeralIsText(s: string, p: Place, n: Numeral)
    ensures PastNumeral(s, p, n) == if n.Valid() then Past(s, p, n.Text()) else None
  {
    PastCat(s, p, n.Sign(), n.whole);
    PastCat(s, p, n.Sign() + n.whole, n.fraction.Text());
    PastCat(s, p, n.Sign() + n.whole + n.fraction.Text(), n.exponent.Text());
  }

  /** An entry's comma and white space, after the text `before` of the entries before it. */
  lemma CommaIsText(s: string, p: Place, before: string, first: bool, gap: string)
    ensures PastComma(s, Past(s, p, before), first, gap)
            == if Space(gap) && (first ==> gap == "") then Past(s, p, before + (if first then "" else ",") + gap) else None
  {
    if first {
      assert before + "" + "" == before;
    } else {
      PastCharIs(s, Past(s, p, before), ',');
      PastCat(s, p, before, ",");
      PastCat(s, p, before + ",", gap);
    }
  }

  lemma BracketIsText(s: string, p: Place, open: char, lead: string, inner: string, close: char)
    ensures PastChar(s, Past(s, Past(s, PastChar(s, p, open), lead), inner), close)
            == Past(s, p, [open] + lead + inner + [close])
  {
    PastCharIs(s, p, open);
    PastCat(s, p, [open], lead);
    PastCat(s, p, [open] + lead, inner);
    PastCharIs(s, Past(s, p, [open] + lead + inner), close);
    PastCat(s, p, [open] + lead + inner, [close]);
  }

  /** A key with its colon and the white space on both sides, after the text `a`. */
  lemma KeyIsText(s: string, p: Place, a: string, key: string, beforeColon: string, afterColon: string)
    requires Body(key) && Space(beforeColon) && Space(afterColon)
    ensures PastSpace(s, PastChar(s, PastSpace(s, PastString(s, Past(s, p, a), key), beforeColon), ':'), afterColon)
            == Past(s, p, a + "\"" + key + "\"" + beforeColon + ":" + afterColon)
  {
    PastCharIs(s, Past(s, p, a), '\"');
    PastCat(s, p, a, "\"");
    PastCat(s, p, a + "\"", key);
    PastCharIs(s, Past(s, p, a + "\"" + key), '\"');
    PastCat(s, p, a + "\"" + key, "\"");
    PastCat(s, p, a + "\"" + key + "\"", beforeColon);
    PastCharIs(s, Past(s, p, a + "\"" + key + "\"" + beforeColon), ':');
    PastCat(s, p, a + "\"" + key + "\"" + beforeColon, ":");
    PastCat(s, p, a + "\"" + key + "\"" + beforeColon + ":", afterColon);
  }

  predicate Inside(s: string, p: Place) { p.Some? ==> p.value <= |s| }

  /** Following a tree is matching its rendering, for trees within the limits. */
  lemma {:induction false} ScanIsRender(s: string, p: Place, t: Tree, depth: nat, text: string)
    requires text == Render(t)
    ensures Scan(s, p, t, depth) == if Grammar(t) && DepthOk(t, depth) then Past(s, p, text) else None
    decreases t
  {
    match t
    case Obj(lead, ms) =>
      var inner := RenderMembers(ms);
      var q := PastSpace(s, PastChar(s, p, '{'), lead);
      MembersAreRender(s, q, ms, depth + 1, inner);
      MembersNone(s, ms, depth + 1);
      BracketIsText(s, p, '{', lead, inner, '}');
    case Arr(lead, xs) =>
      var inner := RenderItems(xs);
      var q := PastSpace(s, PastChar(s, p, '['), lead);
      ItemsAreRender(s, q, xs, depth + 1, inner);
      ItemsNone(s, xs, depth + 1);
      BracketIsText(s, p, '[', lead, inner, ']');
    case Str(raw) => StringIsText(s, p, raw);
    case Num(n) => NumeralIsText(s, p, n);
    case Lit(w) =>
  }

  /** What one entry of an object adds, its value aside. */
  predicate GoodEntry(m: Members)
    requires m.Member?
  {
    && Space(m.gap) && (m.init.NoMembers? ==> m.gap == "") && Body(m.key) && '\\' !in m.key && !HasKey(m.init, m.key)
    && Space(m.beforeColon) && Space(m.afterColon) && Space(m.after)
  }

  lemma {:induction false} MembersAreRender(s: string, p: Place, ms: Members, depth: nat, text: string)
    requires text == RenderMembers(ms) && Inside(s, p)
    ensures ScanMembers(s, p, ms, depth) == if GrammarMembers(ms) && DepthOkMembers(ms, depth) then Past(s, p, text) else None
    decreases ms
  {
    if ms.Member? {
      var before, body := RenderMembers(ms.init), Render(ms.val);
      var first := ms.init.NoMembers?;
      var a := before + (if first then "" else ",") + ms.gap;
      var b := a + "\"" + ms.key + "\"" + ms.beforeColon + ":" + ms.afterColon;
      MembersAreRender(s, p, ms.init, depth, before);
      ScanNone(s, ms.val, depth);
      if GoodEntry(ms) && GrammarMembers(ms.init) && DepthOkMembers(ms.init, depth) {
        CommaIsText(s, p, before, first, ms.gap);
        KeyIsText(s, p, a, ms.key, ms.beforeColon, ms.afterColon);
        ScanIsRender(s, Past(s, p, b), ms.val, depth, body);
        PastCat(s, p, b, body);
        PastCat(s, p, b + body, ms.after);
      } else {
        BadMember(s, p, ms, depth);
      }
    }
  }

  lemma BadMember(s: string, p: Place, m: Members, depth: nat)
    requires m.Member? && (GoodEntry(m) ==> ScanMembers(s, p, m.init, depth) == None)
    ensures ScanMembers(s, p, m, depth) == None
  {
    ScanNone(s, m.val, depth);
  }

  lemma {:induction false} ItemsAreRender(s: string, p: Place, xs: Items, depth: nat, text: string)
    requires text == RenderItems(xs) && Inside(s, p)
    ensures ScanItems(s, p, xs, depth) == if GrammarItems(xs) && DepthOkItems(xs, depth) then Past(s, p, text) else None
    decreases xs
  {
    if xs.Item? {
      var before, body := RenderItems(xs.init), Render(xs.val);
      var first := xs.init.NoItems?;
      var a := before + (if first then "" else ",") + xs.gap;
      ItemsAreRender(s, p, xs.init, depth, before);
      ScanNone(s, xs.val, depth);
      CommaIsText(s, p, before, first, xs.gap);
      ScanIsRender(s, PastComma(s, ScanItems(s, p, xs.init, depth), first, xs.gap), xs.val, depth, body);
      PastCat(s, p, a, body);
      PastCat(s, p, a + body, xs.after);
    }
  }

  // ----- The language -----

  /** `s` is a JSON text with the tree `t`, within the parser's limits. */
  predicate Renders(s: string, lead: string, t: Tree, trail: string) {
    && Space(lead) && Space(trail) && Grammar(t) && DepthOk(t, 0) && Count(t) <= MAX_TOKENS
    && s == lead + Render(t) + trail
  }

  lemma TextIsRender(s: string, lead: string, t: Tree, trail: string)
    ensures IsText(s, lead, t, trail) <==> Renders(s, lead, t, trail)
  {
    var body := Render(t);
    ScanIsRender(s, Past(s, Some(0), lead), t, 0, body);
    PastCat(s, Some(0), lead, body);
    PastCat(s, Some(0), lead + body, trail);
    ScanNone(s, t, 0);
    WholeText(s, lead + body + trail);
  }

  lemma WholeText(s: string, text: string)
    ensures Past(s, Some(0), text) == Some(|s|) <==> s == text
  {
    if Past(s, Some(0), text) == Some(|s|) {
      forall i | 0 <= i < |s|
        ensures s[i] == text[i]
      {
        CharAt(s, 0, text, i);
      }
    }
  }

  /** The machine's first state: all tokens free, nothing open. */
  const START := Expect(0, MAX_TOKENS, Bottom)

  /** Every rendering of a tree is parsed, with its white space and escapes, to that very tree; and
      whatever is parsed is the rendering of the tree it is parsed to. */
  lemma ParsedIffRendered(s: string, lead: string, t: Tree, trail: string)
    ensures Reaches(s, START, Parsed(lead, t, trail)) <==> Renders(s, lead, t, trail)
  {
    TextIsRender(s, lead, t, trail);
    if Reaches(s, START, Parsed(lead, t, trail)) {
      ReachesOk(s, START, Parsed(lead, t, trail));
    }
    if IsText(s, lead, t, trail) {
      TextReached(s, lead, t, trail);
    }
  }

  lemma TextReached(s: string, lead: string, t: Tree, trail: string)
    requires IsText(s, lead, t, trail)
    ensures Reaches(s, START, Parsed(lead, t, trail))
  {
    ScanNone(s, t, 0);
    var q := PastSpace(s, Some(0), lead).value;
    var e := Scan(s, Some(q), t, 0).value;
    var y := Got(lead, t, e, MAX_TOKENS - Count(t), Bottom);
    FirstChar(s, q, t, 0);
    GapComplete(s, 0, lead, q);
    SpacesAre(s, 0, lead, q);
    if trail != "" {
      CharAt(s, e, trail, 0);
      assert SpaceAt(trail, 0);
    }
    TreeReached(s, 0, q, t, MAX_TOKENS, Bottom, e);
    GapComplete(s, e, trail, |s|);
    StepReaches(s, y);
    ReachesOn(s, START, y, Parsed(lead, t, trail));
  }

  /** The grammar is unambiguous: a text renders one tree only. */
  lemma OneTree(s: string, lead: string, t: Tree, trail: string, lead': string, t': Tree, trail': string)
    requires Renders(s, lead, t, trail) && Renders(s, lead', t', trail')
    ensures t == t' && lead == lead' && trail == trail'
  {
    ParsedIffRendered(s, lead, t, trail);
    ParsedIffRendered(s, lead', t', trail');
    EndsAgree(s, START, Parsed(lead, t, trail), Parsed(lead', t', trail'));
  }
}
