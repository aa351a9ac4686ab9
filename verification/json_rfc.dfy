/** Where the parser goes beyond RFC 8259: a backslash followed by a NUL is taken for an escape. */
module JsonRfc {
  import opened JsonSyntax
  import opened JsonScan
  import opened JsonMachine
  import opened JsonText

  /** The string grammar of section 7: the parser's without that escape. */
  predicate RfcBody(raw: string) {
    if raw == "" then true
    else if raw[0] == '\\' then
      if |raw| < 2 then false
      else if raw[1] == 'u' then
        |raw| >= 6 && IsHex(raw[2]) && IsHex(raw[3]) && IsHex(raw[4]) && IsHex(raw[5]) && RfcBody(raw[6..])
      else IsSimpleEscape(raw[1]) && RfcBody(raw[2..])
    else raw[0] >= ' ' && raw[0] != '\"' && RfcBody(raw[1..])
  }

  predicate Rfc(t: Tree) {
    match t
    case Obj(_, ms) => RfcMembers(ms)
    case Arr(_, xs) => RfcItems(xs)
    case Str(raw) => RfcBody(raw)
    case _ => true
  }

  predicate RfcMembers(ms: Members) { ms.Member? ==> RfcMembers(ms.init) && RfcBody(ms.key) && Rfc(ms.val) }

  predicate RfcItems(xs: Items) { xs.Item? ==> RfcItems(xs.init) && Rfc(xs.val) }

  /** The text is one JSON text of RFC 8259, within the parser's limits and its rule on keys. */
  ghost predicate RfcText(s: string) {
    exists l, t, r :: Renders(s, l, t, r) && Rfc(t)
  }

  ghost predicate Accepted(s: string) { exists l, t, r :: Renders(s, l, t, r) }

  lemma {:induction false} BodyExact(raw: string)
    requires Body(raw)
    ensures RfcBody(raw) <==> NUL !in raw
    decreases |raw|
  {
    if raw != "" {
      var n := if raw[0] != '\\' then 1 else if raw[1] == 'u' then 6 else 2;
      BodyExact(raw[n..]);
      assert raw == raw[..n] + raw[n..];
      if n == 6 {
        assert raw[..6] == [raw[0], raw[1], raw[2], raw[3], raw[4], raw[5]];
      } else if n == 2 {
        assert raw[..2] == [raw[0], raw[1]];
      }
    }
  }

  lemma SpaceClean(w: string)
    requires Space(w)
    ensures NUL !in w
  {
    forall i: nat | i < |w|
      ensures w[i] != NUL
    {
      assert SpaceAt(w, i);
    }
  }

  lemma NumeralClean(n: Numeral)
    requires n.Valid()
    ensures NUL !in n.Text()
  {
  }

  lemma {:induction false} TreeExact(t: Tree)
    requires Grammar(t)
    ensures Rfc(t) <==> NUL !in Render(t)
    decreases t
  {
    match t
    case Obj(lead, ms) => MembersExact(ms); SpaceClean(lead);
    case Arr(lead, xs) => ItemsExact(xs); SpaceClean(lead);
    case Str(raw) => BodyExact(raw);
    case Num(n) => NumeralClean(n);
    case Lit(_) =>
  }

  lemma {:induction false} MembersExact(ms: Members)
    requires GrammarMembers(ms)
    ensures RfcMembers(ms) <==> NUL !in RenderMembers(ms)
    decreases ms
  {
    if ms.Member? {
      MembersExact(ms.init);
      TreeExact(ms.val);
      BodyExact(ms.key);
      SpaceClean(ms.gap);
      SpaceClean(ms.beforeColon);
      SpaceClean(ms.afterColon);
      SpaceClean(ms.after);
    }
  }

  lemma {:induction false} ItemsExact(xs: Items)
    requires GrammarItems(xs)
    ensures RfcItems(xs) <==> NUL !in RenderItems(xs)
    decreases xs
  {
    if xs.Item? {
      ItemsExact(xs.init);
      TreeExact(xs.val);
      SpaceClean(xs.gap);
      SpaceClean(xs.after);
    }
  }

  /** Of the texts the parser accepts, exactly those without a NUL are JSON texts. */
  lemma AcceptedIsRfcUnlessNul(s: string)
    requires Accepted(s)
    ensures RfcText(s) <==> NUL !in s
  {
    var l, t, r :| Renders(s, l, t, r);
    TreeExact(t);
    SpaceClean(l);
    SpaceClean(r);
    if RfcText(s) {
      var l', t', r' :| Renders(s, l', t', r') && Rfc(t');
      OneTree(s, l, t, r, l', t', r');
    }
  }

  /** One that is accepted and is no JSON text: a string of a backslash and a NUL. */
  lemma NulIsAnEscape(s: string)
    requires s == "\"\\" + [NUL] + "\""
    ensures Accepted(s) && !RfcText(s)
  {
    var raw := "\\" + [NUL];
    assert raw[2..] == "" && Body(raw);
    assert s == "" + Render(Str(raw)) + "";
    assert Renders(s, "", Str(raw), "");
    assert s[2] == NUL;
    AcceptedIsRfcUnlessNul(s);
  }
}
