/** Following the entries of a list one by one. */
module JsonLists {
  import opened Wrappers
  import opened JsonSyntax
  import opened JsonLexer
  import opened JsonScan
  import opened JsonLexical

  /** Nothing can be followed from nowhere. */
  lemma {:induction false} ScanNone(s: string, t: Tree, depth: nat)
    ensures Scan(s, None, t, depth) == None
    decreases t
  {
    match t
    case Obj(_, ms) => MembersNone(s, ms, depth + 1);
    case Arr(_, xs) => ItemsNone(s, xs, depth + 1);
    case _ =>
  }

  lemma {:induction false} MembersNone(s: string, ms: Members, depth: nat)
    ensures ScanMembers(s, None, ms, depth) == None
    decreases ms
  {
    if ms.Member? {
      MembersNone(s, ms.init, depth);
      ScanNone(s, ms.val, depth);
    }
  }

  lemma {:induction false} ItemsNone(s: string, xs: Items, depth: nat)
    ensures ScanItems(s, None, xs, depth) == None
    decreases xs
  {
    if xs.Item? {
      ItemsNone(s, xs.init, depth);
      ScanNone(s, xs.val, depth);
    }
  }

  /** If a list is followed to its end, so is each part of its last entry. */
  lemma MemberParts(s: string, p: Place, m: Members, depth: nat)
    requires m.Member? && ScanMembers(s, p, m, depth).Some?
    ensures depth <= MAX_DEPTH && '\\' !in m.key && !HasKey(m.init, m.key)
    ensures var k := PastComma(s, ScanMembers(s, p, m.init, depth), m.init.NoMembers?, m.gap);
            var b := PastSpace(s, PastChar(s, PastSpace(s, PastString(s, k, m.key), m.beforeColon), ':'), m.afterColon);
            && ScanMembers(s, p, m.init, depth).Some? && k.Some? && b.Some? && Scan(s, b, m.val, depth).Some?
  {
    ScanNone(s, m.val, depth);
  }

  lemma ItemParts(s: string, p: Place, m: Items, depth: nat)
    requires m.Item? && ScanItems(s, p, m, depth).Some?
    ensures var q := PastComma(s, ScanItems(s, p, m.init, depth), m.init.NoItems?, m.gap);
            ScanItems(s, p, m.init, depth).Some? && q.Some? && Scan(s, q, m.val, depth).Some?
  {
    ScanNone(s, m.val, depth);
  }

  /** A list begins where its first key does, or ends there. */
  lemma {:induction false} FirstMember(s: string, p: Place, ms: Members, depth: nat)
    requires ScanMembers(s, p, ms, depth).Some?
    ensures p.Some? && (ms.Member? ==> p.value < |s| && s[p.value] == '\"')
    ensures ms.NoMembers? ==> ScanMembers(s, p, ms, depth) == p
    decreases ms
  {
    if ms.Member? {
      MemberParts(s, p, ms, depth);
      FirstMember(s, p, ms.init, depth);
    }
  }

  /** Every value starts with a character that is neither white space nor a closing bracket. */
  lemma FirstChar(s: string, q: nat, t: Tree, depth: nat)
    requires Scan(s, Some(q), t, depth).Some?
    ensures q < |s| && !IsSpace(s[q]) && s[q] != ']' && s[q] != '}'
  {
    match t
    case Obj(lead, ms) => FirstMember(s, PastSpace(s, PastChar(s, Some(q), '{'), lead), ms, depth + 1);
    case Arr(lead, xs) => FirstItem(s, PastSpace(s, PastChar(s, Some(q), '['), lead), xs, depth + 1);
    case Str(_) =>
    case Num(n) =>
      if n.minus {
        CharAt(s, q, n.Sign(), 0);
      } else {
        CharAt(s, q, n.whole, 0);
      }
    case Lit(w) => CharAt(s, q, Spelling(w), 0);
  }

  lemma {:induction false} FirstItem(s: string, p: Place, xs: Items, depth: nat)
    requires ScanItems(s, p, xs, depth).Some?
    ensures p.Some? && (xs.NoItems? ==> ScanItems(s, p, xs, depth) == p)
    decreases xs
  {
    if xs.Item? {
      ItemParts(s, p, xs, depth);
      FirstItem(s, p, xs.init, depth);
    }
  }

  lemma {:induction false} FirstItemChar(s: string, p: nat, xs: Items, depth: nat)
    requires ScanItems(s, Some(p), xs, depth).Some? && xs.Item?
    ensures p < |s| && !IsSpace(s[p]) && s[p] != ']'
    decreases xs
  {
    ItemParts(s, Some(p), xs, depth);
    if xs.init.Item? {
      FirstItemChar(s, p, xs.init, depth);
    } else {
      FirstChar(s, p, xs.val, depth);
    }
  }

  predicate EndsEntry(s: string, e: nat) { e < |s| && (s[e] == ',' || s[e] == '}' || s[e] == ']') }

  /** Nothing after a value in a list goes on with a number. */
  lemma AfterValue(s: string, v: nat, after: string, e: nat)
    requires PastSpace(s, Some(v), after) == Some(e) && EndsEntry(s, e)
    ensures Stops(s, v)
  {
    if after != "" {
      CharAt(s, v, after, 0);
      assert SpaceAt(after, 0);
    }
  }

  /** Where the next entry of a list begins, given where the list ends so far. */
  predicate NextAt(s: string, pos: nat, first: bool, end: Place) {
    && pos <= |s|
    && if first then end == Some(pos) && SkipSpace(s, pos) == pos else PastChar(s, end, ',') == Some(pos)
  }

  lemma EntryGap(s: string, pos: nat, end: Place, first: bool, gap: string, q: nat)
    requires NextAt(s, pos, first, end) && PastComma(s, end, first, gap) == Some(q) && q < |s| && !IsSpace(s[q])
    ensures pos <= q && SkipSpace(s, pos) == q && s[pos..q] == gap && forall k | pos <= k < q :: IsSpace(s[k])
  {
    assert PastSpace(s, Some(pos), gap) == Some(q);
    GapComplete(s, pos, gap, q);
    forall k | pos <= k < q
      ensures IsSpace(s[k])
    {
      CharAt(s, pos, gap, k - pos);
      assert SpaceAt(gap, k - pos);
    }
  }

  lemma SpacesAre(s: string, i: nat, w: string, j: nat)
    requires PastSpace(s, Some(i), w) == Some(j)
    ensures i <= j <= |s| && forall k | i <= k < j :: IsSpace(s[k])
  {
    forall k | i <= k < j
      ensures IsSpace(s[k])
    {
      CharAt(s, i, w, k - i);
      assert SpaceAt(w, k - i);
    }
  }

  /** The places a member's parts end at. */
  lemma MemberPlaces(s: string, start: nat, m: Members, depth: nat, e: nat)
    returns (end: nat, q: nat, k: nat, c: nat, b: nat, v: nat)
    requires m.Member? && ScanMembers(s, Some(start), m, depth) == Some(e)
    ensures ScanMembers(s, Some(start), m.init, depth) == Some(end)
    ensures PastComma(s, Some(end), m.init.NoMembers?, m.gap) == Some(q)
    ensures PastString(s, Some(q), m.key) == Some(k) && PastSpace(s, Some(k), m.beforeColon) == Some(c)
    ensures PastChar(s, Some(c), ':') == Some(c + 1) && PastSpace(s, Some(c + 1), m.afterColon) == Some(b)
    ensures Scan(s, Some(b), m.val, depth) == Some(v) && PastSpace(s, Some(v), m.after) == Some(e)
    ensures depth <= MAX_DEPTH && '\\' !in m.key && !HasKey(m.init, m.key)
  {
    MemberParts(s, Some(start), m, depth);
    end := ScanMembers(s, Some(start), m.init, depth).value;
    q := PastComma(s, Some(end), m.init.NoMembers?, m.gap).value;
    k := PastString(s, Some(q), m.key).value;
    c := PastSpace(s, Some(k), m.beforeColon).value;
    b := PastSpace(s, Some(c + 1), m.afterColon).value;
    v := Scan(s, Some(b), m.val, depth).value;
  }

  // The entries of a list, by number.

  function Len(ms: Members): nat { if ms.NoMembers? then 0 else Len(ms.init) + 1 }

  function Take(ms: Members, n: nat): (r: Members)
    requires n <= Len(ms)
    ensures Len(r) == n
  {
    if n == Len(ms) then ms else Take(ms.init, n)
  }

  lemma {:induction false} TakeNext(ms: Members, n: nat)
    requires n < Len(ms)
    ensures Take(ms, n + 1).Member? && Take(ms, n + 1).init == Take(ms, n)
    ensures CountMembers(Take(ms, n + 1)) <= CountMembers(ms)
    decreases ms
  {
    if n + 1 < Len(ms) {
      TakeNext(ms.init, n);
    }
  }

  lemma {:induction false} TakeGrows(ms: Members, n: nat)
    requires n <= Len(ms)
    ensures CountMembers(Take(ms, n)) <= CountMembers(ms)
    ensures n < Len(ms) ==> CountMembers(Take(ms, n)) < CountMembers(ms)
    ensures n == Len(ms) ==> Take(ms, n) == ms
    decreases ms
  {
    if n < Len(ms) {
      TakeGrows(ms.init, n);
    }
  }

  lemma {:induction false} KeyOfTake(ms: Members, n: nat, key: string)
    requires n <= Len(ms) && HasKey(Take(ms, n), key)
    ensures HasKey(ms, key)
    decreases ms
  {
    if n < Len(ms) {
      KeyOfTake(ms.init, n, key);
    }
  }

  /** A list followed to its end has been followed through each of its entries, and a comma. */
  lemma {:induction false} TakeScan(s: string, start: nat, ms: Members, depth: nat, n: nat)
    requires n <= Len(ms) && ScanMembers(s, Some(start), ms, depth).Some?
    ensures var z := ScanMembers(s, Some(start), Take(ms, n), depth);
            z.Some? && (0 < n < Len(ms) ==> z.value < |s| && s[z.value] == ',')
    decreases ms
  {
    if n < Len(ms) {
      MemberParts(s, Some(start), ms, depth);
      TakeScan(s, start, ms.init, depth, n);
    }
  }

  /** The next entry of a list, and that it is followed. */
  lemma NextMember(s: string, start: nat, ms: Members, depth: nat, e: nat, n: nat)
    returns (m: Members, z: nat)
    requires n < Len(ms) && ScanMembers(s, Some(start), ms, depth) == Some(e)
    requires e < |s| && s[e] == '}'
    ensures m == Take(ms, n + 1) && m.Member? && m.init == Take(ms, n) && CountMembers(m) <= CountMembers(ms)
    ensures ScanMembers(s, Some(start), m, depth) == Some(z)
    ensures EndsEntry(s, z) && if n + 1 < Len(ms) then s[z] == ',' else z == e && m == ms
  {
    m := Take(ms, n + 1);
    TakeNext(ms, n);
    TakeScan(s, start, ms, depth, n + 1);
    z := ScanMembers(s, Some(start), m, depth).value;
  }

  function ItemLen(xs: Items): nat { if xs.NoItems? then 0 else ItemLen(xs.init) + 1 }

  function TakeItems(xs: Items, n: nat): (r: Items)
    requires n <= ItemLen(xs)
    ensures ItemLen(r) == n
  {
    if n == ItemLen(xs) then xs else TakeItems(xs.init, n)
  }

  lemma {:induction false} TakeNextItem(xs: Items, n: nat)
    requires n < ItemLen(xs)
    ensures TakeItems(xs, n + 1).Item? && TakeItems(xs, n + 1).init == TakeItems(xs, n)
    ensures CountItems(TakeItems(xs, n + 1)) <= CountItems(xs)
    decreases xs
  {
    if n + 1 < ItemLen(xs) {
      TakeNextItem(xs.init, n);
    }
  }

  lemma {:induction false} TakeScanItems(s: string, start: nat, xs: Items, depth: nat, n: nat)
    requires n <= ItemLen(xs) && ScanItems(s, Some(start), xs, depth).Some?
    ensures var z := ScanItems(s, Some(start), TakeItems(xs, n), depth);
            z.Some? && (0 < n < ItemLen(xs) ==> z.value < |s| && s[z.value] == ',')
    decreases xs
  {
    if n < ItemLen(xs) {
      ItemParts(s, Some(start), xs, depth);
      TakeScanItems(s, start, xs.init, depth, n);
    }
  }

  /** The next entry of a list, and that it is followed. */
  lemma NextItem(s: string, start: nat, xs: Items, depth: nat, e: nat, n: nat)
    returns (m: Items, z: nat)
    requires n < ItemLen(xs) && ScanItems(s, Some(start), xs, depth) == Some(e)
    requires e < |s| && s[e] == ']'
    ensures m == TakeItems(xs, n + 1) && m.Item? && m.init == TakeItems(xs, n) && CountItems(m) <= CountItems(xs)
    ensures ScanItems(s, Some(start), m, depth) == Some(z)
    ensures EndsEntry(s, z) && if n + 1 < ItemLen(xs) then s[z] == ',' else z == e && m == xs
  {
    m := TakeItems(xs, n + 1);
    TakeNextItem(xs, n);
    TakeScanItems(s, start, xs, depth, n + 1);
    z := ScanItems(s, Some(start), m, depth).value;
  }
}
