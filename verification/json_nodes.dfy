/** The token array of a tree, read back: every index is a node, and lists are walked by `end`. */
module JsonNodes {
  import opened Wrappers
  import opened JsonSyntax
  import opened JsonScan
  import opened JsonLexical
  import opened JsonLists

  // ----- Places are widths -----

  lemma {:induction false} ScanWidth(s: string, p: nat, t: Tree, depth: nat)
    requires Scan(s, Some(p), t, depth).Some?
    ensures Scan(s, Some(p), t, depth) == Some(p + Width(t)) && p + Width(t) <= |s|
    decreases t
  {
    match t
    case Obj(lead, ms) =>
      MembersNone(s, ms, depth + 1);
      assert PastSpace(s, PastChar(s, Some(p), '{'), lead) == Some(p + 1 + |lead|);
      MembersWidth(s, p + 1 + |lead|, ms, depth + 1);
    case Arr(lead, xs) =>
      ItemsNone(s, xs, depth + 1);
      assert PastSpace(s, PastChar(s, Some(p), '['), lead) == Some(p + 1 + |lead|);
      ItemsWidth(s, p + 1 + |lead|, xs, depth + 1);
    case Str(raw) =>
    case Num(n) => NumeralWidth(s, p, n);
    case Lit(w) =>
  }

  lemma NumeralWidth(s: string, p: nat, n: Numeral)
    requires PastNumeral(s, Some(p), n).Some?
    ensures PastNumeral(s, Some(p), n) == Some(p + Width(Num(n))) && p + Width(Num(n)) <= |s|
  {
  }

  lemma {:induction false} MembersWidth(s: string, p: nat, ms: Members, depth: nat)
    requires ScanMembers(s, Some(p), ms, depth).Some?
    ensures ScanMembers(s, Some(p), ms, depth) == Some(p + WidthMembers(ms))
    decreases ms
  {
    if ms.Member? {
      MembersWidth(s, p, ms.init, depth) by { MemberParts(s, Some(p), ms, depth); }
      var e := ScanMembers(s, Some(p), ms, depth).value;
      var end, q, h, c, b, v := MemberPlaces(s, p, ms, depth, e);
      assert q == KeyAt(ms, p) && c == ColonAt(ms, p) && b == ValueAt(ms, p);
      ScanWidth(s, b, ms.val, depth);
    }
  }

  lemma {:induction false} ItemsWidth(s: string, p: nat, xs: Items, depth: nat)
    requires ScanItems(s, Some(p), xs, depth).Some?
    ensures ScanItems(s, Some(p), xs, depth) == Some(p + WidthItems(xs))
    decreases xs
  {
    if xs.Item? {
      ItemParts(s, Some(p), xs, depth);
      ItemsWidth(s, p, xs.init, depth);
      ScanWidth(s, ItemAt(xs, p), xs.val, depth);
    }
  }

  // ----- Nodes -----

  /** A value or key, where it starts and how deep it is. */
  datatype Node = Node(t: Tree, start: nat, depth: nat)

  function NodeAt(n: Node, base: nat, i: nat): (r: Node)
    requires base <= i < base + Count(n.t)
    ensures i + Count(r.t) <= base + Count(n.t)
    decreases n.t
  {
    if i == base then n
    else
      match n.t
      case Obj(lead, ms) => MemberNode(ms, n.start + 1 + |lead|, n.depth + 1, base + 1, i)
      case Arr(lead, xs) => ItemNode(xs, n.start + 1 + |lead|, n.depth + 1, base + 1, i)
  }

  function MemberNode(ms: Members, start: nat, depth: nat, base: nat, i: nat): (r: Node)
    requires base <= i < base + CountMembers(ms)
    ensures i + Count(r.t) <= base + CountMembers(ms)
    decreases ms
  {
    var n := base + CountMembers(ms.init);
    if i < n then MemberNode(ms.init, start, depth, base, i)
    else if i == n then Node(Str(ms.key), KeyAt(ms, start), depth)
    else NodeAt(Node(ms.val, ValueAt(ms, start), depth), n + 1, i)
  }

  function ItemNode(xs: Items, start: nat, depth: nat, base: nat, i: nat): (r: Node)
    requires base <= i < base + CountItems(xs)
    ensures i + Count(r.t) <= base + CountItems(xs)
    decreases xs
  {
    var n := base + CountItems(xs.init);
    if i < n then ItemNode(xs.init, start, depth, base, i)
    else NodeAt(Node(xs.val, ItemAt(xs, start), depth), n, i)
  }

  /** The array `toks` holds the tokens of `t`, which starts at `start`, from index `i` on. */
  predicate Holds(toks: seq<Token>, n: Node, i: nat) {
    i + Count(n.t) <= |toks| && toks[i..i + Count(n.t)] == Tokens(n.t, n.start, i)
  }

  predicate HoldsMembers(toks: seq<Token>, ms: Members, start: nat, i: nat) {
    i + CountMembers(ms) <= |toks| && toks[i..i + CountMembers(ms)] == MemberTokens(ms, start, i)
  }

  predicate HoldsItems(toks: seq<Token>, xs: Items, start: nat, i: nat) {
    i + CountItems(xs) <= |toks| && toks[i..i + CountItems(xs)] == ItemTokens(xs, start, i)
  }

  lemma Cut(toks: seq<Token>, i: nat, a: seq<Token>, b: seq<Token>)
    requires i + |a| + |b| <= |toks| && toks[i..i + |a| + |b|] == a + b
    ensures toks[i..i + |a|] == a && toks[i + |a|..i + |a| + |b|] == b
  {
    var w := toks[i..i + |a| + |b|];
    assert toks[i..i + |a|] == w[..|a|] && toks[i + |a|..i + |a| + |b|] == w[|a|..];
    assert (a + b)[..|a|] == a && (a + b)[|a|..] == b;
  }

  lemma HoldsParts(toks: seq<Token>, n: Node, i: nat)
    requires Holds(toks, n, i)
    ensures toks[i] == Head(n.t, n.start, i)
    ensures n.t.Obj? ==> HoldsMembers(toks, n.t.members, n.start + 1 + |n.t.lead|, i + 1)
    ensures n.t.Arr? ==> HoldsItems(toks, n.t.items, n.start + 1 + |n.t.lead|, i + 1)
  {
    var rest := match n.t
      case Obj(lead, ms) => MemberTokens(ms, n.start + 1 + |lead|, i + 1)
      case Arr(lead, xs) => ItemTokens(xs, n.start + 1 + |lead|, i + 1)
      case _ => [];
    var head := [Head(n.t, n.start, i)];
    assert Tokens(n.t, n.start, i) == head + rest;
    Cut(toks, i, head, rest);
    assert toks[i..i + 1][0] == toks[i];
  }

  lemma MemberTokenParts(toks: seq<Token>, ms: Members, start: nat, i: nat)
    requires HoldsMembers(toks, ms, start, i) && ms.Member?
    ensures var n := i + CountMembers(ms.init);
            && HoldsMembers(toks, ms.init, start, i) && Holds(toks, Node(Str(ms.key), KeyAt(ms, start), 0), n)
            && Holds(toks, Node(ms.val, ValueAt(ms, start), 0), n + 1)
  {
    var n := i + CountMembers(ms.init);
    var a := MemberTokens(ms.init, start, i);
    var b := [Head(Str(ms.key), KeyAt(ms, start), n)];
    var c := Tokens(ms.val, ValueAt(ms, start), n + 1);
    assert MemberTokens(ms, start, i) == (a + b) + c;
    Cut(toks, i, a + b, c);
    Cut(toks, i, a, b);
    assert Tokens(Str(ms.key), KeyAt(ms, start), n) == b;
  }

  lemma ItemTokenParts(toks: seq<Token>, xs: Items, start: nat, i: nat)
    requires HoldsItems(toks, xs, start, i) && xs.Item?
    ensures HoldsItems(toks, xs.init, start, i)
    ensures Holds(toks, Node(xs.val, ItemAt(xs, start), 0), i + CountItems(xs.init))
  {
    var a := ItemTokens(xs.init, start, i);
    var c := Tokens(xs.val, ItemAt(xs, start), i + CountItems(xs.init));
    assert ItemTokens(xs, start, i) == a + c;
    Cut(toks, i, a, c);
  }

  /** Every index of the array is the token of a node, followed by the tokens of that node. */
  lemma {:induction false} EveryIndex(toks: seq<Token>, n: Node, base: nat, i: nat) returns (r: Node)
    requires Holds(toks, n, base) && base <= i < base + Count(n.t)
    ensures r == NodeAt(n, base, i) && Holds(toks, r, i)
    decreases n.t
  {
    if i == base {
      r := n;
    } else {
      HoldsParts(toks, n, base);
      match n.t
      case Obj(lead, ms) => r := EveryMember(toks, ms, n.start + 1 + |lead|, n.depth + 1, base + 1, i);
      case Arr(lead, xs) => r := EveryItem(toks, xs, n.start + 1 + |lead|, n.depth + 1, base + 1, i);
    }
  }

  lemma {:induction false} EveryMember(toks: seq<Token>, ms: Members, start: nat, depth: nat, base: nat, i: nat) returns (r: Node)
    requires HoldsMembers(toks, ms, start, base) && base <= i < base + CountMembers(ms)
    ensures r == MemberNode(ms, start, depth, base, i) && Holds(toks, r, i)
    decreases ms
  {
    MemberTokenParts(toks, ms, start, base);
    var n := base + CountMembers(ms.init);
    if i < n {
      r := EveryMember(toks, ms.init, start, depth, base, i);
    } else if i == n {
      r := Node(Str(ms.key), KeyAt(ms, start), depth);
    } else {
      r := EveryIndex(toks, Node(ms.val, ValueAt(ms, start), depth), n + 1, i);
    }
  }

  lemma {:induction false} EveryItem(toks: seq<Token>, xs: Items, start: nat, depth: nat, base: nat, i: nat) returns (r: Node)
    requires HoldsItems(toks, xs, start, base) && base <= i < base + CountItems(xs)
    ensures r == ItemNode(xs, start, depth, base, i) && Holds(toks, r, i)
    decreases xs
  {
    ItemTokenParts(toks, xs, start, base);
    var n := base + CountItems(xs.init);
    if i < n {
      r := EveryItem(toks, xs.init, start, depth, base, i);
    } else {
      r := EveryIndex(toks, Node(xs.val, ItemAt(xs, start), depth), n, i);
    }
  }

  /** The last key and value of a list are where `KeyAt` and `ValueAt` say. */
  lemma LastSpelled(s: string, ms: Members, start: nat, depth: nat)
    requires ScanMembers(s, Some(start), ms, depth).Some? && ms.Member?
    ensures ScanMembers(s, Some(start), ms.init, depth).Some?
    ensures Scan(s, Some(KeyAt(ms, start)), Str(ms.key), depth).Some?
    ensures Scan(s, Some(ValueAt(ms, start)), ms.val, depth).Some?
  {
    var e := ScanMembers(s, Some(start), ms, depth).value;
    var end, q, h, c, b, v := MemberPlaces(s, start, ms, depth, e);
    MembersWidth(s, start, ms.init, depth);
    assert q == KeyAt(ms, start) && c == ColonAt(ms, start) && b == ValueAt(ms, start);
  }

  /** A node, or a list, is spelled in the text where it should be. */
  ghost predicate Spelt(s: string, n: Node) {
    forall b {:trigger Look(b)} :: Look(b) ==> Scan(s, Some(n.start), n.t, n.depth).Some?
  }

  ghost predicate SpeltMembers(s: string, ms: Members, start: nat, depth: nat) {
    forall b {:trigger Look(b)} :: Look(b) ==> ScanMembers(s, Some(start), ms, depth).Some?
  }

  ghost predicate SpeltItems(s: string, xs: Items, start: nat, depth: nat) {
    forall b {:trigger Look(b)} :: Look(b) ==> ScanItems(s, Some(start), xs, depth).Some?
  }

  lemma ListSpelt(s: string, n: Node)
    requires Spelt(s, n)
    ensures n.t.Obj? ==> SpeltMembers(s, n.t.members, n.start + 1 + |n.t.lead|, n.depth + 1)
    ensures n.t.Arr? ==> SpeltItems(s, n.t.items, n.start + 1 + |n.t.lead|, n.depth + 1)
  {
    assert Look(true);
    match n.t
    case Obj(lead, ms) =>
      MembersNone(s, ms, n.depth + 1);
      assert PastSpace(s, PastChar(s, Some(n.start), '{'), lead) == Some(n.start + 1 + |lead|);
    case Arr(lead, xs) =>
      ItemsNone(s, xs, n.depth + 1);
      assert PastSpace(s, PastChar(s, Some(n.start), '['), lead) == Some(n.start + 1 + |lead|);
    case _ =>
  }

  lemma MemberSpelt(s: string, ms: Members, start: nat, depth: nat)
    requires SpeltMembers(s, ms, start, depth) && ms.Member?
    ensures SpeltMembers(s, ms.init, start, depth)
    ensures Spelt(s, Node(Str(ms.key), KeyAt(ms, start), depth)) && Spelt(s, Node(ms.val, ValueAt(ms, start), depth))
  {
    assert Look(true);
    LastSpelled(s, ms, start, depth);
  }

  lemma ItemSpelt(s: string, xs: Items, start: nat, depth: nat)
    requires SpeltItems(s, xs, start, depth) && xs.Item?
    ensures SpeltItems(s, xs.init, start, depth) && Spelt(s, Node(xs.val, ItemAt(xs, start), depth))
  {
    assert Look(true);
    ItemParts(s, Some(start), xs, depth);
    ItemsWidth(s, start, xs.init, depth);
  }

  /** Every node is spelled in the text where its token says. */
  lemma {:induction false} NodeSpelt(s: string, n: Node, base: nat, i: nat)
    requires Spelt(s, n) && base <= i < base + Count(n.t)
    ensures Spelt(s, NodeAt(n, base, i))
    decreases n.t
  {
    if i != base {
      ListSpelt(s, n);
      match n.t
      case Obj(lead, ms) => MembersSpelt(s, ms, n.start + 1 + |lead|, n.depth + 1, base + 1, i);
      case Arr(lead, xs) => ItemsSpelt(s, xs, n.start + 1 + |lead|, n.depth + 1, base + 1, i);
    }
  }

  lemma {:induction false} MembersSpelt(s: string, ms: Members, start: nat, depth: nat, base: nat, i: nat)
    requires SpeltMembers(s, ms, start, depth) && base <= i < base + CountMembers(ms)
    ensures Spelt(s, MemberNode(ms, start, depth, base, i))
    decreases ms
  {
    MemberSpelt(s, ms, start, depth);
    var n := base + CountMembers(ms.init);
    if i < n {
      MembersSpelt(s, ms.init, start, depth, base, i);
    } else if i > n {
      NodeSpelt(s, Node(ms.val, ValueAt(ms, start), depth), n + 1, i);
    }
  }

  lemma {:induction false} ItemsSpelt(s: string, xs: Items, start: nat, depth: nat, base: nat, i: nat)
    requires SpeltItems(s, xs, start, depth) && base <= i < base + CountItems(xs)
    ensures Spelt(s, ItemNode(xs, start, depth, base, i))
    decreases xs
  {
    ItemSpelt(s, xs, start, depth);
    var n := base + CountItems(xs.init);
    if i < n {
      ItemsSpelt(s, xs.init, start, depth, base, i);
    } else {
      NodeSpelt(s, Node(xs.val, ItemAt(xs, start), depth), n, i);
    }
  }

  lemma EverySpelled(s: string, n: Node, base: nat, i: nat)
    requires Scan(s, Some(n.start), n.t, n.depth).Some? && base <= i < base + Count(n.t)
    ensures var r := NodeAt(n, base, i); Scan(s, Some(r.start), r.t, r.depth).Some?
  {
    NodeSpelt(s, n, base, i);
    assert Look(true);
  }

  // ----- Looking things up -----

  /** The index of the value of `key`, in an object whose list starts at `base`. */
  function MemberIndex(ms: Members, key: string, base: nat): int {
    if ms.NoMembers? then -1
    else if HasKey(ms.init, key) then MemberIndex(ms.init, key, base)
    else if ms.key == key then base + CountMembers(ms.init) + 1
    else -1
  }

  /** The value of `key`. */
  function Lookup(ms: Members, key: string): Option<Tree> {
    if ms.NoMembers? then None
    else if ms.key == key then Some(ms.val)
    else Lookup(ms.init, key)
  }

  function ItemIndex(xs: Items, n: nat, base: nat): int {
    if ItemLen(xs) <= n then -1 else base + CountItems(TakeItems(xs, n))
  }

  /** The value at place `n`. */
  function Element(xs: Items, n: nat): Option<Tree> {
    if ItemLen(xs) <= n then None
    else if ItemLen(xs) == n + 1 then Some(xs.val)
    else Element(xs.init, n)
  }

  /** The index that `get` returns is that of the member asked for. */
  lemma {:induction false} MemberFound(ms: Members, key: string, start: nat, depth: nat, base: nat)
    requires UniqueKeys(ms)
    ensures var r := MemberIndex(ms, key, base);
            if Lookup(ms, key).None? then r == -1 && !HasKey(ms, key)
            else && base <= r < base + CountMembers(ms) && HasKey(ms, key)
                 && MemberNode(ms, start, depth, base, r).t == Lookup(ms, key).value
    decreases ms
  {
    if ms.Member? {
      MemberFound(ms.init, key, start, depth, base);
    }
  }

  /** The index that `at` returns is that of the element asked for. */
  lemma {:induction false} ItemFound(xs: Items, n: nat, start: nat, depth: nat, base: nat)
    ensures var r := ItemIndex(xs, n, base);
            if Element(xs, n).None? then r == -1
            else base <= r < base + CountItems(xs) && ItemNode(xs, start, depth, base, r).t == Element(xs, n).value
    decreases xs
  {
    if n < ItemLen(xs) {
      TakeNextItem(xs, n);
      if n + 1 < ItemLen(xs) {
        ItemFound(xs.init, n, start, depth, base);
      }
    }
  }

  /** A node of a node is a node. */
  lemma {:induction false} NodeInNode(n: Node, base: nat, o: nat, i: nat)
    requires base <= o < base + Count(n.t) && o <= i < o + Count(NodeAt(n, base, o).t)
    ensures NodeAt(n, base, i) == NodeAt(NodeAt(n, base, o), o, i)
    decreases n.t
  {
    if o != base {
      match n.t
      case Obj(lead, ms) => NodeInMember(ms, n.start + 1 + |lead|, n.depth + 1, base + 1, o, i);
      case Arr(lead, xs) => NodeInItem(xs, n.start + 1 + |lead|, n.depth + 1, base + 1, o, i);
    }
  }

  lemma {:induction false} NodeInMember(ms: Members, start: nat, depth: nat, base: nat, o: nat, i: nat)
    requires base <= o < base + CountMembers(ms) && o <= i < o + Count(MemberNode(ms, start, depth, base, o).t)
    ensures MemberNode(ms, start, depth, base, i) == NodeAt(MemberNode(ms, start, depth, base, o), o, i)
    decreases ms
  {
    var n := base + CountMembers(ms.init);
    if o < n {
      NodeInMember(ms.init, start, depth, base, o, i);
    } else if o > n {
      NodeInNode(Node(ms.val, ValueAt(ms, start), depth), n + 1, o, i);
    }
  }

  lemma {:induction false} NodeInItem(xs: Items, start: nat, depth: nat, base: nat, o: nat, i: nat)
    requires base <= o < base + CountItems(xs) && o <= i < o + Count(ItemNode(xs, start, depth, base, o).t)
    ensures ItemNode(xs, start, depth, base, i) == NodeAt(ItemNode(xs, start, depth, base, o), o, i)
    decreases xs
  {
    var n := base + CountItems(xs.init);
    if o < n {
      NodeInItem(xs.init, start, depth, base, o, i);
    } else {
      NodeInNode(Node(xs.val, ItemAt(xs, start), depth), n, o, i);
    }
  }

  // ----- Walking a list by `end` -----

  lemma KeyToken(toks: seq<Token>, s: string, key: string, at: nat, i: nat, depth: nat)
    requires Holds(toks, Node(Str(key), at, 0), i) && Scan(s, Some(at), Str(key), depth).Some?
    ensures i < |toks| && toks[i].start + toks[i].len <= |s|
    ensures s[toks[i].start..toks[i].start + toks[i].len] == key
  {
    HoldsParts(toks, Node(Str(key), at, 0), i);
    SliceIs(s, at + 1, key);
  }

  lemma LastKey(toks: seq<Token>, s: string, ms: Members, start: nat, depth: nat, base: nat)
    requires HoldsMembers(toks, ms, start, base) && ScanMembers(s, Some(start), ms, depth).Some? && ms.Member?
    ensures var i := base + CountMembers(ms.init);
            && i < |toks| && toks[i].start + toks[i].len <= |s|
            && s[toks[i].start..toks[i].start + toks[i].len] == ms.key
  {
    assert Scan(s, Some(KeyAt(ms, start)), Str(ms.key), depth).Some? by {
      LastSpelled(s, ms, start, depth);
    }
    MemberTokenParts(toks, ms, start, base);
    KeyToken(toks, s, ms.key, KeyAt(ms, start), base + CountMembers(ms.init), depth);
  }

  lemma LastValue(toks: seq<Token>, ms: Members, start: nat, base: nat)
    requires HoldsMembers(toks, ms, start, base) && ms.Member?
    ensures var i := base + CountMembers(ms.init) + 1;
            i < |toks| && toks[i].end == base + CountMembers(ms)
  {
    var v := Node(ms.val, ValueAt(ms, start), 0);
    MemberTokenParts(toks, ms, start, base);
    HoldsParts(toks, v, base + CountMembers(ms.init) + 1);
  }

  lemma {:induction false} HoldsTake(toks: seq<Token>, ms: Members, start: nat, base: nat, n: nat)
    requires HoldsMembers(toks, ms, start, base) && n <= Len(ms)
    ensures HoldsMembers(toks, Take(ms, n), start, base)
    decreases ms
  {
    if n < Len(ms) {
      MemberTokenParts(toks, ms, start, base);
      HoldsTake(toks, ms.init, start, base, n);
    }
  }

  /** The token of key number `n`, its text, and where the next key is. */
  lemma WalkMembers(toks: seq<Token>, s: string, ms: Members, start: nat, depth: nat, base: nat, n: nat)
    requires HoldsMembers(toks, ms, start, base) && ScanMembers(s, Some(start), ms, depth).Some? && n < Len(ms)
    ensures var i, m := base + CountMembers(Take(ms, n)), Take(ms, n + 1);
            && m.Member? && m.init == Take(ms, n) && i + 1 < |toks| && i + 1 < base + CountMembers(ms)
            && toks[i + 1].end == base + CountMembers(m) && toks[i].start + toks[i].len <= |s|
            && s[toks[i].start..toks[i].start + toks[i].len] == m.key
  {
    TakeNext(ms, n);
    HoldsTake(toks, ms, start, base, n + 1);
    TakeScan(s, start, ms, depth, n + 1);
    LastKey(toks, s, Take(ms, n + 1), start, depth, base);
    LastValue(toks, Take(ms, n + 1), start, base);
  }

  lemma {:induction false} WalkItems(toks: seq<Token>, xs: Items, start: nat, base: nat, n: nat)
    requires HoldsItems(toks, xs, start, base) && n < ItemLen(xs)
    ensures var i := base + CountItems(TakeItems(xs, n));
            i < |toks| && i < base + CountItems(xs) && toks[i].end == base + CountItems(TakeItems(xs, n + 1))
    decreases xs
  {
    ItemTokenParts(toks, xs, start, base);
    if n + 1 < ItemLen(xs) {
      WalkItems(toks, xs.init, start, base, n);
    } else {
      HoldsParts(toks, Node(xs.val, ItemAt(xs, start), 0), base + CountItems(xs.init));
    }
  }

  lemma {:induction false} TakeItemsGrows(xs: Items, n: nat)
    requires n <= ItemLen(xs)
    ensures if n < ItemLen(xs) then CountItems(TakeItems(xs, n)) < CountItems(xs) else TakeItems(xs, n) == xs
    decreases xs
  {
    if n < ItemLen(xs) {
      TakeItemsGrows(xs.init, n);
    }
  }

  /** The first entry with the key is the one that is found. */
  lemma {:induction false} IndexOfTake(ms: Members, key: string, n: nat, base: nat)
    requires n < Len(ms) && !HasKey(Take(ms, n), key) && Take(ms, n + 1).Member? && Take(ms, n + 1).key == key
    requires Take(ms, n + 1).init == Take(ms, n)
    ensures MemberIndex(ms, key, base) == base + CountMembers(Take(ms, n)) + 1
    decreases ms
  {
    if n + 1 < Len(ms) {
      IndexOfTake(ms.init, key, n, base);
      HasKeyOfTake(ms.init, n + 1, key);
    }
  }

  lemma {:induction false} HasKeyOfTake(ms: Members, n: nat, key: string)
    requires n <= Len(ms) && HasKey(Take(ms, n), key)
    ensures HasKey(ms, key)
    decreases ms
  {
    if n < Len(ms) {
      HasKeyOfTake(ms.init, n, key);
    }
  }

  /** What an object that stands in a text has: its keys are unique, and its list is spelled. */
  lemma ObjectFacts(s: string, n: Node)
    requires Scan(s, Some(n.start), n.t, n.depth).Some? && n.t.Obj?
    ensures ScanMembers(s, Some(n.start + 1 + |n.t.lead|), n.t.members, n.depth + 1).Some?
    ensures UniqueKeys(n.t.members)
  {
    MembersNone(s, n.t.members, n.depth + 1);
    KeysUnique(s, n.start + 1 + |n.t.lead|, n.t.members, n.depth + 1);
  }

  predicate UniqueKeys(ms: Members) {
    ms.Member? ==> !HasKey(ms.init, ms.key) && UniqueKeys(ms.init)
  }

  lemma {:induction false} KeysUnique(s: string, p: nat, ms: Members, depth: nat)
    requires ScanMembers(s, Some(p), ms, depth).Some?
    ensures UniqueKeys(ms)
    decreases ms
  {
    if ms.Member? {
      MemberParts(s, Some(p), ms, depth);
      KeysUnique(s, p, ms.init, depth);
    }
  }

  lemma {:induction false} NoMember(ms: Members, key: string, base: nat)
    requires !HasKey(ms, key)
    ensures MemberIndex(ms, key, base) == -1
    decreases ms
  {
  }

  /** What `get` finds in the object at index `o` of a tree. */
  lemma MemberOfNode(root: Node, o: nat, key: string)
    requires o < Count(root.t) && NodeAt(root, 0, o).t.Obj? && UniqueKeys(NodeAt(root, 0, o).t.members)
    ensures var ms := NodeAt(root, 0, o).t.members;
            var r := MemberIndex(ms, key, o + 1);
            if Lookup(ms, key).None? then r == -1
            else 0 <= r < Count(root.t) && NodeAt(root, 0, r).t == Lookup(ms, key).value
  {
    var n := NodeAt(root, 0, o);
    var r := MemberIndex(n.t.members, key, o + 1);
    MemberFound(n.t.members, key, n.start + 1 + |n.t.lead|, n.depth + 1, o + 1);
    if r >= 0 {
      NodeInNode(root, 0, o, r);
    }
  }

  /** What `at` finds in the array at index `o` of a tree. */
  lemma ItemOfNode(root: Node, o: nat, n: nat)
    requires o < Count(root.t) && NodeAt(root, 0, o).t.Arr?
    ensures var xs := NodeAt(root, 0, o).t.items;
            var r := ItemIndex(xs, n, o + 1);
            if Element(xs, n).None? then r == -1
            else 0 <= r < Count(root.t) && NodeAt(root, 0, r).t == Element(xs, n).value
  {
    var x := NodeAt(root, 0, o);
    var r := ItemIndex(x.t.items, n, o + 1);
    ItemFound(x.t.items, n, x.start + 1 + |x.t.lead|, x.depth + 1, o + 1);
    if r >= 0 {
      NodeInNode(root, 0, o, r);
    }
  }

  /** Where the list of an object or an array is, in the array of tokens and in the text. */
  lemma NodeList(toks: seq<Token>, s: string, n: Node, o: nat)
    requires Holds(toks, n, o) && Scan(s, Some(n.start), n.t, n.depth).Some?
    ensures o < |toks| && toks[o].kind == Kind(n.t) && toks[o].end == o + Count(n.t)
    ensures n.t.Obj? ==>
              && HoldsMembers(toks, n.t.members, n.start + 1 + |n.t.lead|, o + 1) && UniqueKeys(n.t.members)
              && ScanMembers(s, Some(n.start + 1 + |n.t.lead|), n.t.members, n.depth + 1).Some?
    ensures n.t.Arr? ==> HoldsItems(toks, n.t.items, n.start + 1 + |n.t.lead|, o + 1)
  {
    HoldsParts(toks, n, o);
    if n.t.Obj? {
      ObjectFacts(s, n);
    }
  }
}
