/** Every tree that a text spells within the limits is reached by the machine. */
module JsonComplete {
  import opened Wrappers
  import opened JsonSyntax
  import opened JsonLexer
  import opened JsonScan
  import opened JsonLexical
  import opened JsonLists
  import opened JsonMachine

  /** One step reads a scalar. */
  lemma ScalarReached(s: string, pos: nat, q: nat, t: Tree, room: nat, k: Stack, e: nat)
    requires pos <= q <= |s| && !t.Obj? && !t.Arr? && Scan(s, Some(q), t, Depth(k)) == Some(e) && 1 <= room
    requires t.Num? ==> Stops(s, e)
    requires forall i | pos <= i < q :: IsSpace(s[i])
    ensures Reaches(s, Expect(pos, room, k), Got(s[pos..q], t, e, room - 1, k))
  {
    ScalarComplete(s, q, t, Depth(k), e);
    SkipSpaceComplete(s, pos, q);
    StepReaches(s, Expect(pos, room, k));
  }

  lemma {:induction false} TreeReached(s: string, pos: nat, q: nat, t: Tree, room: nat, k: Stack, e: nat)
    requires pos <= q <= |s| && Scan(s, Some(q), t, Depth(k)) == Some(e) && Count(t) <= room && (t.Num? ==> Stops(s, e))
    requires forall i | pos <= i < q :: IsSpace(s[i])
    ensures Reaches(s, Expect(pos, room, k), Got(s[pos..q], t, e, room - Count(t), k))
    decreases Count(t), 0, 0
  {
    match t
    case Obj(lead, ms) => ObjectReached(s, pos, q, lead, ms, room, k, e);
    case Arr(lead, xs) => ArrayReached(s, pos, q, lead, xs, room, k, e);
    case _ => ScalarReached(s, pos, q, t, room, k, e);
  }

  /** The step that opens a container, unless it is empty. */
  lemma ObjectOpens(s: string, pos: nat, q: nat, lead: string, p: nat, room: nat, k: Stack)
    requires pos <= q < |s| && (forall i | pos <= i < q :: IsSpace(s[i])) && s[q] == '{'
    requires PastSpace(s, Some(q + 1), lead) == Some(p) && (p < |s| ==> !IsSpace(s[p]))
    requires 1 <= room && Depth(k) <= MAX_DEPTH
    ensures Reaches(s, Expect(pos, room, k),
                    if p < |s| && s[p] == '}' then Got(s[pos..q], Obj(lead, NoMembers), p + 1, room - 1, k)
                    else Expect(p, room - 1, On(k, InObject(s[pos..q], lead, NoMembers))))
  {
    SkipSpaceComplete(s, pos, q);
    GapComplete(s, q + 1, lead, p);
    StepReaches(s, Expect(pos, room, k));
  }

  lemma {:induction false} ObjectReached(s: string, pos: nat, q: nat, lead: string, ms: Members, room: nat, k: Stack, e: nat)
    requires pos <= q <= |s| && Scan(s, Some(q), Obj(lead, ms), Depth(k)) == Some(e) && 1 + CountMembers(ms) <= room
    requires forall i | pos <= i < q :: IsSpace(s[i])
    ensures Reaches(s, Expect(pos, room, k), Got(s[pos..q], Obj(lead, ms), e, room - 1 - CountMembers(ms), k))
    decreases CountMembers(ms), 4, 0
  {
    var gap := s[pos..q];
    MembersNone(s, ms, Depth(k) + 1);
    var p := PastSpace(s, Some(q + 1), lead).value;
    FirstMember(s, Some(p), ms, Depth(k) + 1);
    ObjectOpens(s, pos, q, lead, p, room, k);
    if ms.Member? {
      MembersReached(s, p, ms, e - 1, 0, NoMembers, p, room - 1, k, gap, lead);
      ReachesOn(s, Expect(pos, room, k), Expect(p, room - 1, On(k, InObject(gap, lead, NoMembers))),
                Got(gap, Obj(lead, ms), e, room - 1 - CountMembers(ms), k));
    }
  }

  /** From one entry of an object on to its end. */
  lemma {:induction false} MembersReached(s: string, start: nat, ms: Members, e: nat, n: nat, acc: Members, pos: nat, room: nat,
                                          k: Stack, gap: string, lead: string)
    requires n < Len(ms) && acc == Take(ms, n) && ScanMembers(s, Some(start), ms, Depth(k) + 1) == Some(e)
    requires e < |s| && s[e] == '}' && NextAt(s, pos, acc.NoMembers?, ScanMembers(s, Some(start), acc, Depth(k) + 1))
    requires CountMembers(ms) - CountMembers(acc) <= room
    ensures Reaches(s, Expect(pos, room, On(k, InObject(gap, lead, acc))),
                    Got(gap, Obj(lead, ms), e + 1, room - CountMembers(ms) + CountMembers(acc), k))
    decreases CountMembers(ms), 3, Len(ms) - n
  {
    var m, z := NextMember(s, start, ms, Depth(k) + 1, e, n);
    var left := room - 1 - Count(m.val);
    var x := Expect(pos, room, On(k, InObject(gap, lead, acc)));
    var y := Got(gap, Obj(lead, ms), e + 1, room - CountMembers(ms) + CountMembers(acc), k);
    MemberReached(s, pos, start, m, room, k, gap, lead, z);
    assert CountMembers(m) == CountMembers(acc) + 1 + Count(m.val);
    if n + 1 < Len(ms) {
      MembersReached(s, start, ms, e, n + 1, m, z + 1, left, k, gap, lead);
      ReachesOn(s, x, Expect(z + 1, left, On(k, InObject(gap, lead, m))), y);
    } else {
      assert AfterMember(s, m, left, k, gap, lead, z) == y;
    }
  }

  /** What follows an entry of an object that ends at `z`. */
  function AfterMember(s: string, m: Members, room: nat, k: Stack, gap: string, lead: string, z: nat): State
    requires EndsEntry(s, z)
  {
    if s[z] == '}' then Got(gap, Obj(lead, m), z + 1, room, k)
    else if s[z] == ',' then Expect(z + 1, room, On(k, InObject(gap, lead, m)))
    else Failed
  }

  /** The key of an entry, with its colon, ... */
  lemma KeyReached(s: string, pos: nat, end: nat, m: Members, room: nat, k: Stack, gap: string, lead: string,
                   q: nat, h: nat, c: nat)
    requires m.Member? && NextAt(s, pos, m.init.NoMembers?, Some(end)) && 1 <= room && Depth(k) + 1 <= MAX_DEPTH
    requires PastComma(s, Some(end), m.init.NoMembers?, m.gap) == Some(q) && PastString(s, Some(q), m.key) == Some(h)
    requires PastSpace(s, Some(h), m.beforeColon) == Some(c) && PastChar(s, Some(c), ':') == Some(c + 1)
    requires '\\' !in m.key && !HasKey(m.init, m.key)
    ensures Reaches(s, Expect(pos, room, On(k, InObject(gap, lead, m.init))),
                    Expect(c + 1, room - 1, On(k, InMember(gap, lead, m.init, m.gap, m.key, m.beforeColon))))
  {
    var x0 := Expect(pos, room, On(k, InObject(gap, lead, m.init)));
    EntryGap(s, pos, Some(end), m.init.NoMembers?, m.gap, q);
    ScalarReached(s, pos, q, Str(m.key), room, x0.stack, h);
    ColonReached(s, m, room - 1, k, gap, lead, h, c);
    ReachesOn(s, x0, Got(m.gap, Str(m.key), h, room - 1, x0.stack),
              Expect(c + 1, room - 1, On(k, InMember(gap, lead, m.init, m.gap, m.key, m.beforeColon))));
  }

  /** ... and its value with what follows. */
  lemma {:induction false} MemberReached(s: string, pos: nat, start: nat, m: Members, room: nat, k: Stack, gap: string, lead: string,
                                         z: nat)
    requires m.Member? && NextAt(s, pos, m.init.NoMembers?, ScanMembers(s, Some(start), m.init, Depth(k) + 1))
    requires ScanMembers(s, Some(start), m, Depth(k) + 1) == Some(z) && 1 + Count(m.val) <= room && EndsEntry(s, z)
    ensures Reaches(s, Expect(pos, room, On(k, InObject(gap, lead, m.init))),
                    AfterMember(s, m, room - 1 - Count(m.val), k, gap, lead, z))
    decreases CountMembers(m), 2, 0
  {
    var end, q, h, c, b, v := MemberPlaces(s, start, m, Depth(k) + 1, z);
    var left := room - 1 - Count(m.val);
    var x := Expect(pos, room, On(k, InObject(gap, lead, m.init)));
    var y := Expect(c + 1, room - 1, On(k, InMember(gap, lead, m.init, m.gap, m.key, m.beforeColon)));
    KeyReached(s, pos, end, m, room, k, gap, lead, q, h, c);
    ValueReached(s, m, y.stack, c + 1, b, v, z, room - 1);
    MemberEnds(s, m, left, k, gap, lead, v, z);
    ReachesOn(s, y, Got(m.afterColon, m.val, v, left, y.stack), AfterMember(s, m, left, k, gap, lead, z));
    ReachesOn(s, x, y, AfterMember(s, m, left, k, gap, lead, z));
  }

  lemma ColonReached(s: string, m: Members, room: nat, k: Stack, gap: string, lead: string, h: nat, c: nat)
    requires m.Member? && PastSpace(s, Some(h), m.beforeColon) == Some(c) && PastChar(s, Some(c), ':') == Some(c + 1)
    requires '\\' !in m.key && !HasKey(m.init, m.key)
    ensures Reaches(s, Got(m.gap, Str(m.key), h, room, On(k, InObject(gap, lead, m.init))),
                    Expect(c + 1, room, On(k, InMember(gap, lead, m.init, m.gap, m.key, m.beforeColon))))
  {
    GapComplete(s, h, m.beforeColon, c);
    StepReaches(s, Got(m.gap, Str(m.key), h, room, On(k, InObject(gap, lead, m.init))));
  }

  lemma {:induction false} ValueReached(s: string, m: Members, k: Stack, c: nat, b: nat, v: nat, z: nat, room: nat)
    requires m.Member? && Count(m.val) <= room && EndsEntry(s, z)
    requires PastSpace(s, Some(c), m.afterColon) == Some(b)
    requires Scan(s, Some(b), m.val, Depth(k)) == Some(v) && PastSpace(s, Some(v), m.after) == Some(z)
    ensures Reaches(s, Expect(c, room, k), Got(m.afterColon, m.val, v, room - Count(m.val), k))
    decreases CountMembers(m), 1, 0
  {
    FirstChar(s, b, m.val, Depth(k));
    GapComplete(s, c, m.afterColon, b);
    SpacesAre(s, c, m.afterColon, b);
    AfterValue(s, v, m.after, z);
    TreeReached(s, c, b, m.val, room, k, v);
  }

  lemma MemberEnds(s: string, m: Members, room: nat, k: Stack, gap: string, lead: string, v: nat, z: nat)
    requires m.Member? && PastSpace(s, Some(v), m.after) == Some(z) && EndsEntry(s, z)
    ensures Reaches(s, Got(m.afterColon, m.val, v, room, On(k, InMember(gap, lead, m.init, m.gap, m.key, m.beforeColon))),
                    AfterMember(s, m, room, k, gap, lead, z))
  {
    GapComplete(s, v, m.after, z);
    StepReaches(s, Got(m.afterColon, m.val, v, room, On(k, InMember(gap, lead, m.init, m.gap, m.key, m.beforeColon))));
  }

  /** The step that opens a container, unless it is empty. */
  lemma ArrayOpens(s: string, pos: nat, q: nat, lead: string, p: nat, room: nat, k: Stack)
    requires pos <= q < |s| && (forall i | pos <= i < q :: IsSpace(s[i])) && s[q] == '['
    requires PastSpace(s, Some(q + 1), lead) == Some(p) && (p < |s| ==> !IsSpace(s[p]))
    requires 1 <= room && Depth(k) <= MAX_DEPTH
    ensures Reaches(s, Expect(pos, room, k),
                    if p < |s| && s[p] == ']' then Got(s[pos..q], Arr(lead, NoItems), p + 1, room - 1, k)
                    else Expect(p, room - 1, On(k, InArray(s[pos..q], lead, NoItems))))
  {
    SkipSpaceComplete(s, pos, q);
    GapComplete(s, q + 1, lead, p);
    StepReaches(s, Expect(pos, room, k));
  }

  lemma {:induction false} ArrayReached(s: string, pos: nat, q: nat, lead: string, xs: Items, room: nat, k: Stack, e: nat)
    requires pos <= q <= |s| && Scan(s, Some(q), Arr(lead, xs), Depth(k)) == Some(e) && 1 + CountItems(xs) <= room
    requires forall i | pos <= i < q :: IsSpace(s[i])
    ensures Reaches(s, Expect(pos, room, k), Got(s[pos..q], Arr(lead, xs), e, room - 1 - CountItems(xs), k))
    decreases CountItems(xs), 4, 0
  {
    var gap := s[pos..q];
    ItemsNone(s, xs, Depth(k) + 1);
    var p := PastSpace(s, Some(q + 1), lead).value;
    FirstItem(s, Some(p), xs, Depth(k) + 1);
    if xs.Item? {
      FirstItemChar(s, p, xs, Depth(k) + 1);
    }
    ArrayOpens(s, pos, q, lead, p, room, k);
    if xs.Item? {
      ItemsReached(s, p, xs, e - 1, 0, NoItems, p, room - 1, k, gap, lead);
      ReachesOn(s, Expect(pos, room, k), Expect(p, room - 1, On(k, InArray(gap, lead, NoItems))),
                Got(gap, Arr(lead, xs), e, room - 1 - CountItems(xs), k));
    }
  }

  lemma {:induction false} ItemsReached(s: string, start: nat, xs: Items, e: nat, n: nat, acc: Items, pos: nat, room: nat,
                                        k: Stack, gap: string, lead: string)
    requires n < ItemLen(xs) && acc == TakeItems(xs, n) && ScanItems(s, Some(start), xs, Depth(k) + 1) == Some(e)
    requires e < |s| && s[e] == ']' && NextAt(s, pos, acc.NoItems?, ScanItems(s, Some(start), acc, Depth(k) + 1))
    requires CountItems(xs) - CountItems(acc) <= room
    ensures Reaches(s, Expect(pos, room, On(k, InArray(gap, lead, acc))),
                    Got(gap, Arr(lead, xs), e + 1, room - CountItems(xs) + CountItems(acc), k))
    decreases CountItems(xs), 3, ItemLen(xs) - n
  {
    var m, z := NextItem(s, start, xs, Depth(k) + 1, e, n);
    var left := room - Count(m.val);
    var x := Expect(pos, room, On(k, InArray(gap, lead, acc)));
    ItemReached(s, pos, start, m, room, k, gap, lead, z);
    if n + 1 < ItemLen(xs) {
      ItemsReached(s, start, xs, e, n + 1, m, z + 1, left, k, gap, lead);
      ReachesOn(s, x, Expect(z + 1, left, On(k, InArray(gap, lead, m))),
                Got(gap, Arr(lead, xs), e + 1, room - CountItems(xs) + CountItems(acc), k));
    }
  }

  function AfterItem(s: string, m: Items, room: nat, k: Stack, gap: string, lead: string, z: nat): State
    requires EndsEntry(s, z)
  {
    if s[z] == ']' then Got(gap, Arr(lead, m), z + 1, room, k)
    else if s[z] == ',' then Expect(z + 1, room, On(k, InArray(gap, lead, m)))
    else Failed
  }

  lemma {:induction false} ItemReached(s: string, pos: nat, start: nat, m: Items, room: nat, k: Stack, gap: string, lead: string,
                                       z: nat)
    requires m.Item? && NextAt(s, pos, m.init.NoItems?, ScanItems(s, Some(start), m.init, Depth(k) + 1))
    requires ScanItems(s, Some(start), m, Depth(k) + 1) == Some(z) && Count(m.val) <= room && EndsEntry(s, z)
    ensures Reaches(s, Expect(pos, room, On(k, InArray(gap, lead, m.init))),
                    AfterItem(s, m, room - Count(m.val), k, gap, lead, z))
    decreases CountItems(m), 2, 0
  {
    var x := Expect(pos, room, On(k, InArray(gap, lead, m.init)));
    var v := ElementReached(s, pos, start, m, room, x.stack, z);
    ItemEnds(s, m, room - Count(m.val), k, gap, lead, v, z);
    ReachesOn(s, x, Got(m.gap, m.val, v, room - Count(m.val), x.stack), AfterItem(s, m, room - Count(m.val), k, gap, lead, z));
  }

  lemma {:induction false} ElementReached(s: string, pos: nat, start: nat, m: Items, room: nat, k: Stack, z: nat) returns (v: nat)
    requires m.Item? && NextAt(s, pos, m.init.NoItems?, ScanItems(s, Some(start), m.init, Depth(k)))
    requires ScanItems(s, Some(start), m, Depth(k)) == Some(z) && Count(m.val) <= room && EndsEntry(s, z)
    ensures PastSpace(s, Some(v), m.after) == Some(z)
    ensures Reaches(s, Expect(pos, room, k), Got(m.gap, m.val, v, room - Count(m.val), k))
    decreases CountItems(m), 1, 0
  {
    var end := ScanItems(s, Some(start), m.init, Depth(k));
    ItemParts(s, Some(start), m, Depth(k));
    var q := PastComma(s, end, m.init.NoItems?, m.gap).value;
    v := Scan(s, Some(q), m.val, Depth(k)).value;
    FirstChar(s, q, m.val, Depth(k));
    EntryGap(s, pos, end, m.init.NoItems?, m.gap, q);
    AfterValue(s, v, m.after, z);
    TreeReached(s, pos, q, m.val, room, k, v);
  }

  lemma ItemEnds(s: string, m: Items, room: nat, k: Stack, gap: string, lead: string, v: nat, z: nat)
    requires m.Item? && PastSpace(s, Some(v), m.after) == Some(z) && EndsEntry(s, z)
    ensures Reaches(s, Got(m.gap, m.val, v, room, On(k, InArray(gap, lead, m.init))), AfterItem(s, m, room, k, gap, lead, z))
  {
    GapComplete(s, v, m.after, z);
    StepReaches(s, Got(m.gap, m.val, v, room, On(k, InArray(gap, lead, m.init))));
  }
}
