/** What every step of the machine keeps, and so what it means for a text to be parsed. */
module JsonSound {
  import opened Wrappers
  import opened JsonSyntax
  import opened JsonLexer
  import opened JsonScan
  import opened JsonLexical
  import opened JsonLists
  import opened JsonMachine

  /** Past the opening bracket of a container that stands at `p` after `gap`. */
  function PastOpening(s: string, p: Place, gap: string, open: char, lead: string): Place {
    PastSpace(s, PastChar(s, PastSpace(s, p, gap), open), lead)
  }

  /** Where the white space before the next value starts, if the text before it is that of `k`. */
  function Open(s: string, k: Stack): Place {
    match k
    case Bottom => Some(0)
    case On(below, InObject(gap, lead, ms)) =>
      var e := ScanMembers(s, PastOpening(s, Open(s, below), gap, '{', lead), ms, Depth(below) + 1);
      if ms.NoMembers? then e else PastChar(s, e, ',')
    case On(below, InMember(gap, lead, ms, keyGap, key, beforeColon)) =>
      var e := ScanMembers(s, PastOpening(s, Open(s, below), gap, '{', lead), ms, Depth(below) + 1);
      PastChar(s, PastSpace(s, PastString(s, PastComma(s, e, ms.NoMembers?, keyGap), key), beforeColon), ':')
    case On(below, InArray(gap, lead, xs)) =>
      var e := ScanItems(s, PastOpening(s, Open(s, below), gap, '[', lead), xs, Depth(below) + 1);
      if xs.NoItems? then e else PastChar(s, e, ',')
  }

  /** Tokens taken by what is open. */
  function Spent(k: Stack): nat {
    match k
    case Bottom => 0
    case On(below, InObject(_, _, ms)) => Spent(below) + 1 + CountMembers(ms)
    case On(below, InMember(_, _, ms, _, _, _)) => Spent(below) + 2 + CountMembers(ms)
    case On(below, InArray(_, _, xs)) => Spent(below) + 1 + CountItems(xs)
  }

  predicate GoodFrame(f: Frame) { f.InMember? ==> '\\' !in f.key && !HasKey(f.members, f.key) }

  predicate AtFirst(k: Stack) {
    k.On? && ((k.frame.InObject? && k.frame.members.NoMembers?) || (k.frame.InArray? && k.frame.items.NoItems?))
  }

  /** A stack that the machine builds: not too deep, every pending key a good one, and the white space
      before the first value of a container counted to its bracket. */
  predicate Good(k: Stack) {
    k.On? ==>
      && Depth(k.below) <= MAX_DEPTH && GoodFrame(k.frame) && Good(k.below)
      && (AtFirst(k.below) ==> k.frame.gap == "")
  }

  /** The text `s` is one value, within the limits, between white space. */
  predicate IsText(s: string, lead: string, t: Tree, trail: string) {
    && PastSpace(s, Scan(s, PastSpace(s, Some(0), lead), t, 0), trail) == Some(|s|)
    && Count(t) <= MAX_TOKENS
  }

  predicate ExpectOk(s: string, pos: nat, room: nat, k: Stack) {
    && pos <= |s| && Open(s, k) == Some(pos) && Good(k) && Spent(k) + room == MAX_TOKENS
    && (AtFirst(k) ==> SkipSpace(s, pos) == pos)
  }

  predicate GotOk(s: string, gap: string, t: Tree, pos: nat, room: nat, k: Stack) {
    && Scan(s, PastSpace(s, Open(s, k), gap), t, Depth(k)) == Some(pos) && Good(k) && pos <= |s|
    && Depth(k) <= MAX_DEPTH && Spent(k) + Count(t) + room == MAX_TOKENS && (AtFirst(k) ==> gap == "")
  }

  predicate Inv(s: string, x: State) {
    match x
    case Expect(pos, room, k) => ExpectOk(s, pos, room, k)
    case Got(gap, t, pos, room, k) => GotOk(s, gap, t, pos, room, k)
    case Parsed(lead, t, trail) => IsText(s, lead, t, trail)
    case Failed => true
  }

  /** The invariant, looked into only where a proof says so. */
  ghost predicate Sure(s: string, x: State) { forall b {:trigger Look(b)} :: Look(b) ==> Inv(s, x) }

  lemma SureWithin(s: string, x: State)
    requires Sure(s, x)
    ensures x.Within(s)
  {
    assert Look(true);
  }

  /** What is known of a value read, besides where it ends. */
  lemma GotParts(s: string, gap: string, t: Tree, pos: nat, room: nat, k: Stack)
    requires Sure(s, Got(gap, t, pos, room, k))
    ensures Good(k) && Depth(k) <= MAX_DEPTH && Spent(k) + Count(t) + room == MAX_TOKENS
  {
    assert Look(true);
  }

  lemma ObjectOpens(s: string, pos: nat, room: nat, k: Stack)
    requires ExpectOk(s, pos, room, k) && SkipSpace(s, pos) < |s| && s[SkipSpace(s, pos)] == '{'
    ensures var q := SkipSpace(s, pos);
            var p := SkipSpace(s, q + 1);
            && PastOpening(s, Open(s, k), s[pos..q], '{', s[q + 1..p]) == Some(p) && p <= |s|
            && (AtFirst(k) ==> s[pos..q] == "") && SkipSpace(s, p) == p
  {
    SkipSpaceSound(s, pos);
    SkipSpaceSound(s, SkipSpace(s, pos) + 1);
  }

  lemma EmptyObjectScanned(s: string, q: Place, lead: string, p: nat, depth: nat)
    requires PastSpace(s, PastChar(s, q, '{'), lead) == Some(p) && p < |s| && s[p] == '}' && depth <= MAX_DEPTH
    ensures Scan(s, q, Obj(lead, NoMembers), depth) == Some(p + 1)
  {
  }

  lemma ObjectStarts(s: string, gap: string, lead: string, p: nat, room: nat, k: Stack)
    requires PastOpening(s, Open(s, k), gap, '{', lead) == Some(p) && p <= |s| && SkipSpace(s, p) == p
    requires Good(k) && Depth(k) <= MAX_DEPTH && Spent(k) + 1 + room == MAX_TOKENS && (AtFirst(k) ==> gap == "")
    ensures ExpectOk(s, p, room, On(k, InObject(gap, lead, NoMembers)))
  {
  }

  lemma StepObjectOk(s: string, pos: nat, room: nat, k: Stack) returns (r: State)
    requires ExpectOk(s, pos, room, k) && SkipSpace(s, pos) < |s| && s[SkipSpace(s, pos)] == '{'
    ensures r == StepExpect(s, pos, room, k) && Inv(s, r)
  {
    var q := SkipSpace(s, pos);
    var p := SkipSpace(s, q + 1);
    var gap, lead := s[pos..q], s[q + 1..p];
    ObjectOpens(s, pos, room, k);
    if Depth(k) > MAX_DEPTH || room == 0 {
      r := Failed;
    } else if p < |s| && s[p] == '}' {
      EmptyObjectScanned(s, PastSpace(s, Open(s, k), gap), lead, p, Depth(k));
      r := Got(gap, Obj(lead, NoMembers), p + 1, room - 1, k);
    } else {
      ObjectStarts(s, gap, lead, p, room - 1, k);
      r := Expect(p, room - 1, On(k, InObject(gap, lead, NoMembers)));
    }
  }

  lemma ArrayOpens(s: string, pos: nat, room: nat, k: Stack)
    requires ExpectOk(s, pos, room, k) && SkipSpace(s, pos) < |s| && s[SkipSpace(s, pos)] == '['
    ensures var q := SkipSpace(s, pos);
            var p := SkipSpace(s, q + 1);
            && PastOpening(s, Open(s, k), s[pos..q], '[', s[q + 1..p]) == Some(p) && p <= |s|
            && (AtFirst(k) ==> s[pos..q] == "") && SkipSpace(s, p) == p
  {
    SkipSpaceSound(s, pos);
    SkipSpaceSound(s, SkipSpace(s, pos) + 1);
  }

  lemma EmptyArrayScanned(s: string, q: Place, lead: string, p: nat, depth: nat)
    requires PastSpace(s, PastChar(s, q, '['), lead) == Some(p) && p < |s| && s[p] == ']' && depth <= MAX_DEPTH
    ensures Scan(s, q, Arr(lead, NoItems), depth) == Some(p + 1)
  {
  }

  lemma ArrayStarts(s: string, gap: string, lead: string, p: nat, room: nat, k: Stack)
    requires PastOpening(s, Open(s, k), gap, '[', lead) == Some(p) && p <= |s| && SkipSpace(s, p) == p
    requires Good(k) && Depth(k) <= MAX_DEPTH && Spent(k) + 1 + room == MAX_TOKENS && (AtFirst(k) ==> gap == "")
    ensures ExpectOk(s, p, room, On(k, InArray(gap, lead, NoItems)))
  {
  }

  lemma StepArrayOk(s: string, pos: nat, room: nat, k: Stack) returns (r: State)
    requires ExpectOk(s, pos, room, k) && SkipSpace(s, pos) < |s| && s[SkipSpace(s, pos)] == '['
    ensures r == StepExpect(s, pos, room, k) && Inv(s, r)
  {
    var q := SkipSpace(s, pos);
    var p := SkipSpace(s, q + 1);
    var gap, lead := s[pos..q], s[q + 1..p];
    ArrayOpens(s, pos, room, k);
    if Depth(k) > MAX_DEPTH || room == 0 {
      r := Failed;
    } else if p < |s| && s[p] == ']' {
      EmptyArrayScanned(s, PastSpace(s, Open(s, k), gap), lead, p, Depth(k));
      r := Got(gap, Arr(lead, NoItems), p + 1, room - 1, k);
    } else {
      ArrayStarts(s, gap, lead, p, room - 1, k);
      r := Expect(p, room - 1, On(k, InArray(gap, lead, NoItems)));
    }
  }

  lemma StepScalarOk(s: string, pos: nat, room: nat, k: Stack)
    requires ExpectOk(s, pos, room, k) && SkipSpace(s, pos) < |s|
    requires s[SkipSpace(s, pos)] != '{' && s[SkipSpace(s, pos)] != '['
    ensures Inv(s, StepExpect(s, pos, room, k))
  {
    var q := SkipSpace(s, pos);
    SkipSpaceSound(s, pos);
    if Depth(k) <= MAX_DEPTH && ReadScalar(s, q).Done? {
      ScalarSound(s, q, Depth(k));
    }
  }

  lemma StepExpectOk(s: string, pos: nat, room: nat, k: Stack) returns (r: State)
    requires ExpectOk(s, pos, room, k)
    ensures r == StepExpect(s, pos, room, k) && Inv(s, r)
  {
    var q := SkipSpace(s, pos);
    if q == |s| {
      r := Failed;
    } else if s[q] == '{' {
      r := StepObjectOk(s, pos, room, k);
    } else if s[q] == '[' {
      r := StepArrayOk(s, pos, room, k);
    } else {
      r := StepExpect(s, pos, room, k);
      StepScalarOk(s, pos, room, k);
    }
  }

  /** Where a list stands before its next entry, the comma included. */
  lemma CommaInObject(s: string, k: Stack, gap: string, e: Place)
    requires k.On? && k.frame.InObject? && (AtFirst(k) ==> gap == "") && PastSpace(s, Open(s, k), gap).Some?
    requires e == ScanMembers(s, PastOpening(s, Open(s, k.below), k.frame.gap, '{', k.frame.lead), k.frame.members,
                              Depth(k))
    ensures PastComma(s, e, k.frame.members.NoMembers?, gap) == PastSpace(s, Open(s, k), gap)
  {
  }

  lemma StringEnds(s: string, q: Place, key: string, pos: nat, depth: nat)
    requires Scan(s, q, Str(key), depth) == Some(pos)
    ensures PastString(s, q, key) == Some(pos) && q.Some?
  {
  }

  /** A string in an object, with a colon after it, is a key. */
  lemma KeyScanned(s: string, gap: string, key: string, pos: nat, room: nat, k: Stack)
    requires Sure(s, Got(gap, Str(key), pos, room, k)) && pos <= |s| && k.On? && k.frame.InObject?
    ensures var e := ScanMembers(s, PastOpening(s, Open(s, k.below), k.frame.gap, '{', k.frame.lead), k.frame.members,
                                 Depth(k));
            PastString(s, PastComma(s, e, k.frame.members.NoMembers?, gap), key) == Some(pos)
  {
    assert Look(true);
    var e := ScanMembers(s, PastOpening(s, Open(s, k.below), k.frame.gap, '{', k.frame.lead), k.frame.members, Depth(k));
    StringEnds(s, PastSpace(s, Open(s, k), gap), key, pos, Depth(k));
    CommaInObject(s, k, gap, e);
  }

  /** Past the colon after a key. */
  lemma ColonAfter(s: string, q: Place, key: string, after: string, pos: nat, z: nat)
    requires PastString(s, q, key) == Some(pos)
    requires PastSpace(s, Some(pos), after) == Some(z) && z < |s| && s[z] == ':'
    ensures PastChar(s, PastSpace(s, PastString(s, q, key), after), ':') == Some(z + 1)
  {
  }

  lemma KeyOpens(s: string, gap: string, key: string, after: string, pos: nat, z: nat, k: Stack)
    requires k.On? && k.frame.InObject?
    requires var e := ScanMembers(s, PastOpening(s, Open(s, k.below), k.frame.gap, '{', k.frame.lead), k.frame.members,
                                  Depth(k));
             PastString(s, PastComma(s, e, k.frame.members.NoMembers?, gap), key) == Some(pos)
    requires PastSpace(s, Some(pos), after) == Some(z) && z < |s| && s[z] == ':'
    ensures var f := k.frame;
            Open(s, On(k.below, InMember(f.gap, f.lead, f.members, gap, key, after))) == Some(z + 1)
  {
    var f := k.frame;
    var e := ScanMembers(s, PastOpening(s, Open(s, k.below), f.gap, '{', f.lead), f.members, Depth(k));
    ColonAfter(s, PastComma(s, e, f.members.NoMembers?, gap), key, after, pos, z);
  }

  lemma KeyGoesOn(s: string, gap: string, key: string, after: string, z: nat, room: nat, k: Stack) returns (m: Stack)
    requires k.On? && k.frame.InObject? && Good(k) && Spent(k) + 1 + room == MAX_TOKENS && z < |s|
    requires GoodKey(Str(key), k.frame.members)
    requires var f := k.frame; Open(s, On(k.below, InMember(f.gap, f.lead, f.members, gap, key, after))) == Some(z + 1)
    ensures var f := k.frame; m == On(k.below, InMember(f.gap, f.lead, f.members, gap, key, after))
    ensures ExpectOk(s, z + 1, room, m)
  {
    var f := k.frame;
    m := On(k.below, InMember(f.gap, f.lead, f.members, gap, key, after));
  }

  lemma StepKeyOk(s: string, gap: string, t: Tree, pos: nat, room: nat, k: Stack) returns (r: State)
    requires Sure(s, Got(gap, t, pos, room, k)) && pos <= |s| && k.On? && k.frame.InObject?
    ensures r == StepGot(s, gap, t, pos, room, k) && Inv(s, r)
  {
    var f, z := k.frame, SkipSpace(s, pos);
    if GoodKey(t, f.members) && z < |s| && s[z] == ':' {
      GotParts(s, gap, t, pos, room, k);
      KeyScanned(s, gap, t.raw, pos, room, k);
      SkipSpaceSound(s, pos);
      KeyOpens(s, gap, t.raw, s[pos..z], pos, z, k);
      var m := KeyGoesOn(s, gap, t.raw, s[pos..z], z, room, k);
      r := Expect(z + 1, room, m);
    } else {
      r := Failed;
    }
  }

  ghost predicate EndsAt(p: Place, z: nat) { forall b {:trigger Look(b)} :: Look(b) ==> p == Some(z) }

  lemma CharEnds(s: string, p: Place, c: char, z: nat)
    requires EndsAt(p, z) && z < |s| && s[z] == c
    ensures EndsAt(PastChar(s, p, c), z + 1)
  {
    assert Look(true);
  }

  /** A value in an object completes its entry. */
  lemma MemberScanned(s: string, gap: string, t: Tree, pos: nat, room: nat, k: Stack)
    requires Sure(s, Got(gap, t, pos, room, k)) && pos <= |s| && k.On? && k.frame.InMember?
    ensures var f, z := k.frame, SkipSpace(s, pos);
            var m := Member(f.members, f.keyGap, f.key, f.beforeColon, gap, t, s[pos..z]);
            EndsAt(ScanMembers(s, PastOpening(s, Open(s, k.below), f.gap, '{', f.lead), m, Depth(k)), z)
  {
    assert Look(true);
    SkipSpaceSound(s, pos);
  }

  lemma ScanObject(s: string, gap: string, lead: string, m: Members, below: Stack)
    requires Depth(below) <= MAX_DEPTH
    ensures Scan(s, PastSpace(s, Open(s, below), gap), Obj(lead, m), Depth(below))
            == PastChar(s, ScanMembers(s, PastOpening(s, Open(s, below), gap, '{', lead), m, Depth(below) + 1), '}')
  {
  }

  lemma ObjectCloses(s: string, gap: string, lead: string, m: Members, z: nat, below: Stack)
    requires EndsAt(ScanMembers(s, PastOpening(s, Open(s, below), gap, '{', lead), m, Depth(below) + 1), z)
    requires Depth(below) <= MAX_DEPTH && z < |s| && s[z] == '}'
    ensures EndsAt(Scan(s, PastSpace(s, Open(s, below), gap), Obj(lead, m), Depth(below)), z + 1)
  {
    CharEnds(s, ScanMembers(s, PastOpening(s, Open(s, below), gap, '{', lead), m, Depth(below) + 1), '}', z);
    ScanObject(s, gap, lead, m, below);
  }

  lemma MemberCloses(s: string, gap: string, t: Tree, after: string, z: nat, room: nat, k: Stack) returns (u: Tree)
    requires k.On? && k.frame.InMember? && Good(k) && Spent(k) + Count(t) + room == MAX_TOKENS && z < |s|
    requires var f := k.frame;
             var m := Member(f.members, f.keyGap, f.key, f.beforeColon, gap, t, after);
             EndsAt(Scan(s, PastSpace(s, Open(s, k.below), f.gap), Obj(f.lead, m), Depth(k.below)), z + 1)
    ensures var f := k.frame;
            u == Obj(f.lead, Member(f.members, f.keyGap, f.key, f.beforeColon, gap, t, after))
    ensures GotOk(s, k.frame.gap, u, z + 1, room, k.below)
  {
    var f := k.frame;
    u := Obj(f.lead, Member(f.members, f.keyGap, f.key, f.beforeColon, gap, t, after));
    assert Look(true);
  }

  lemma OpenBeforeMember(s: string, gap: string, lead: string, m: Members, below: Stack)
    requires m.Member?
    ensures Open(s, On(below, InObject(gap, lead, m)))
            == PastChar(s, ScanMembers(s, PastOpening(s, Open(s, below), gap, '{', lead), m, Depth(below) + 1), ',')
  {
  }

  lemma ObjectStaysOpen(s: string, gap: string, lead: string, m: Members, z: nat, below: Stack)
    requires EndsAt(ScanMembers(s, PastOpening(s, Open(s, below), gap, '{', lead), m, Depth(below) + 1), z)
    requires m.Member? && z < |s| && s[z] == ','
    ensures EndsAt(Open(s, On(below, InObject(gap, lead, m))), z + 1)
  {
    CharEnds(s, ScanMembers(s, PastOpening(s, Open(s, below), gap, '{', lead), m, Depth(below) + 1), ',', z);
    OpenBeforeMember(s, gap, lead, m, below);
  }

  lemma MemberContinues(s: string, gap: string, t: Tree, after: string, z: nat, room: nat, k: Stack) returns (n: Stack)
    requires k.On? && k.frame.InMember? && Good(k) && Spent(k) + Count(t) + room == MAX_TOKENS && z < |s|
    requires var f := k.frame;
             var m := Member(f.members, f.keyGap, f.key, f.beforeColon, gap, t, after);
             EndsAt(Open(s, On(k.below, InObject(f.gap, f.lead, m))), z + 1)
    ensures var f := k.frame;
            var m := Member(f.members, f.keyGap, f.key, f.beforeColon, gap, t, after);
            n == On(k.below, InObject(f.gap, f.lead, m))
    ensures ExpectOk(s, z + 1, room, n)
  {
    var f := k.frame;
    n := On(k.below, InObject(f.gap, f.lead, Member(f.members, f.keyGap, f.key, f.beforeColon, gap, t, after)));
    assert Look(true);
  }

  lemma StepMemberOk(s: string, gap: string, t: Tree, pos: nat, room: nat, k: Stack) returns (r: State)
    requires Sure(s, Got(gap, t, pos, room, k)) && pos <= |s| && k.On? && k.frame.InMember?
    ensures r == StepGot(s, gap, t, pos, room, k) && Inv(s, r)
  {
    var f, z := k.frame, SkipSpace(s, pos);
    var after := s[pos..z];
    var m := Member(f.members, f.keyGap, f.key, f.beforeColon, gap, t, after);
    GotParts(s, gap, t, pos, room, k);
    MemberScanned(s, gap, t, pos, room, k);
    if z < |s| && s[z] == '}' {
      ObjectCloses(s, f.gap, f.lead, m, z, k.below);
      var u := MemberCloses(s, gap, t, after, z, room, k);
      r := Got(f.gap, u, z + 1, room, k.below);
    } else if z < |s| && s[z] == ',' {
      ObjectStaysOpen(s, f.gap, f.lead, m, z, k.below);
      var n := MemberContinues(s, gap, t, after, z, room, k);
      r := Expect(z + 1, room, n);
    } else {
      r := Failed;
    }
  }

  lemma ItemScanned(s: string, gap: string, t: Tree, pos: nat, room: nat, k: Stack)
    requires Sure(s, Got(gap, t, pos, room, k)) && pos <= |s| && k.On? && k.frame.InArray?
    ensures var f, z := k.frame, SkipSpace(s, pos);
            var m := Item(f.items, gap, t, s[pos..z]);
            EndsAt(ScanItems(s, PastOpening(s, Open(s, k.below), f.gap, '[', f.lead), m, Depth(k)), z)
  {
    assert Look(true);
    SkipSpaceSound(s, pos);
    var e := ScanItems(s, PastOpening(s, Open(s, k.below), k.frame.gap, '[', k.frame.lead), k.frame.items, Depth(k));
    ScanNone(s, t, Depth(k));
    assert PastComma(s, e, k.frame.items.NoItems?, gap) == PastSpace(s, Open(s, k), gap);
  }

  lemma ScanArray(s: string, gap: string, lead: string, m: Items, below: Stack)
    requires Depth(below) <= MAX_DEPTH
    ensures Scan(s, PastSpace(s, Open(s, below), gap), Arr(lead, m), Depth(below))
            == PastChar(s, ScanItems(s, PastOpening(s, Open(s, below), gap, '[', lead), m, Depth(below) + 1), ']')
  {
  }

  lemma ArrayCloses(s: string, gap: string, lead: string, m: Items, z: nat, below: Stack)
    requires EndsAt(ScanItems(s, PastOpening(s, Open(s, below), gap, '[', lead), m, Depth(below) + 1), z)
    requires Depth(below) <= MAX_DEPTH && z < |s| && s[z] == ']'
    ensures EndsAt(Scan(s, PastSpace(s, Open(s, below), gap), Arr(lead, m), Depth(below)), z + 1)
  {
    CharEnds(s, ScanItems(s, PastOpening(s, Open(s, below), gap, '[', lead), m, Depth(below) + 1), ']', z);
    ScanArray(s, gap, lead, m, below);
  }

  lemma ItemCloses(s: string, gap: string, t: Tree, after: string, z: nat, room: nat, k: Stack) returns (u: Tree)
    requires k.On? && k.frame.InArray? && Good(k) && Spent(k) + Count(t) + room == MAX_TOKENS && z < |s|
    requires var u := Arr(k.frame.lead, Item(k.frame.items, gap, t, after));
             EndsAt(Scan(s, PastSpace(s, Open(s, k.below), k.frame.gap), u, Depth(k.below)), z + 1)
    ensures u == Arr(k.frame.lead, Item(k.frame.items, gap, t, after))
    ensures GotOk(s, k.frame.gap, u, z + 1, room, k.below)
  {
    u := Arr(k.frame.lead, Item(k.frame.items, gap, t, after));
    assert Look(true);
  }

  lemma OpenBeforeItem(s: string, gap: string, lead: string, m: Items, below: Stack)
    requires m.Item?
    ensures Open(s, On(below, InArray(gap, lead, m)))
            == PastChar(s, ScanItems(s, PastOpening(s, Open(s, below), gap, '[', lead), m, Depth(below) + 1), ',')
  {
  }

  lemma ArrayStaysOpen(s: string, gap: string, lead: string, m: Items, z: nat, below: Stack)
    requires EndsAt(ScanItems(s, PastOpening(s, Open(s, below), gap, '[', lead), m, Depth(below) + 1), z)
    requires m.Item? && z < |s| && s[z] == ','
    ensures EndsAt(Open(s, On(below, InArray(gap, lead, m))), z + 1)
  {
    CharEnds(s, ScanItems(s, PastOpening(s, Open(s, below), gap, '[', lead), m, Depth(below) + 1), ',', z);
    OpenBeforeItem(s, gap, lead, m, below);
  }

  lemma ItemContinues(s: string, gap: string, t: Tree, after: string, z: nat, room: nat, k: Stack) returns (n: Stack)
    requires k.On? && k.frame.InArray? && Good(k) && Spent(k) + Count(t) + room == MAX_TOKENS && z < |s|
    requires EndsAt(Open(s, On(k.below, InArray(k.frame.gap, k.frame.lead, Item(k.frame.items, gap, t, after)))), z + 1)
    ensures n == On(k.below, InArray(k.frame.gap, k.frame.lead, Item(k.frame.items, gap, t, after)))
    ensures ExpectOk(s, z + 1, room, n)
  {
    n := On(k.below, InArray(k.frame.gap, k.frame.lead, Item(k.frame.items, gap, t, after)));
    assert Look(true);
  }

  lemma StepItemOk(s: string, gap: string, t: Tree, pos: nat, room: nat, k: Stack) returns (r: State)
    requires Sure(s, Got(gap, t, pos, room, k)) && pos <= |s| && k.On? && k.frame.InArray?
    ensures r == StepGot(s, gap, t, pos, room, k) && Inv(s, r)
  {
    var f, z := k.frame, SkipSpace(s, pos);
    var after := s[pos..z];
    var m := Item(f.items, gap, t, after);
    GotParts(s, gap, t, pos, room, k);
    ItemScanned(s, gap, t, pos, room, k);
    if z < |s| && s[z] == ']' {
      ArrayCloses(s, f.gap, f.lead, m, z, k.below);
      var u := ItemCloses(s, gap, t, after, z, room, k);
      r := Got(f.gap, u, z + 1, room, k.below);
    } else if z < |s| && s[z] == ',' {
      ArrayStaysOpen(s, f.gap, f.lead, m, z, k.below);
      var n := ItemContinues(s, gap, t, after, z, room, k);
      r := Expect(z + 1, room, n);
    } else {
      r := Failed;
    }
  }

  lemma StepTextOk(s: string, gap: string, t: Tree, pos: nat, room: nat) returns (r: State)
    requires Sure(s, Got(gap, t, pos, room, Bottom)) && pos <= |s|
    ensures r == StepGot(s, gap, t, pos, room, Bottom) && Inv(s, r)
  {
    assert Look(true);
    SkipSpaceSound(s, pos);
    r := StepGot(s, gap, t, pos, room, Bottom);
  }

  lemma StepGotOk(s: string, gap: string, t: Tree, pos: nat, room: nat, k: Stack) returns (r: State)
    requires Sure(s, Got(gap, t, pos, room, k)) && pos <= |s|
    ensures r == StepGot(s, gap, t, pos, room, k) && Sure(s, r)
  {
    match k {
      case Bottom => r := StepTextOk(s, gap, t, pos, room);
      case On(_, InObject(_, _, _)) => r := StepKeyOk(s, gap, t, pos, room, k);
      case On(_, InMember(_, _, _, _, _, _)) => r := StepMemberOk(s, gap, t, pos, room, k);
      case On(_, InArray(_, _, _)) => r := StepItemOk(s, gap, t, pos, room, k);
    }
  }

  lemma StepExpectSure(s: string, pos: nat, room: nat, k: Stack) returns (r: State)
    requires Sure(s, Expect(pos, room, k)) && pos <= |s|
    ensures r == StepExpect(s, pos, room, k) && Sure(s, r)
  {
    assert Look(true);
    r := StepExpectOk(s, pos, room, k);
  }

  lemma StepOk(s: string, x: State) returns (r: State)
    requires Sure(s, x) && !Final(x)
    ensures x.Within(s) && r == Step(s, x) && Sure(s, r)
  {
    SureWithin(s, x);
    match x
    case Expect(pos, room, k) => r := StepExpectSure(s, pos, room, k);
    case Got(gap, t, pos, room, k) => r := StepGotOk(s, gap, t, pos, room, k);
  }

  lemma {:induction false} RunOk(s: string, xs: seq<State>, n: nat)
    requires IsRun(s, xs) && Sure(s, xs[0]) && n < |xs|
    ensures Sure(s, xs[n])
  {
    if n > 0 {
      RunOk(s, xs, n - 1);
      assert Moves(s, xs, n - 1);
      var r := StepOk(s, xs[n - 1]);
    }
  }

  lemma ReachesSure(s: string, x: State, y: State)
    requires Reaches(s, x, y) && Sure(s, x)
    ensures Sure(s, y)
  {
    var xs :| Runs(s, x, y, xs);
    RunOk(s, xs, |xs| - 1);
  }

  lemma ReachesOk(s: string, x: State, y: State)
    requires Reaches(s, x, y) && Inv(s, x)
    ensures Inv(s, y)
  {
    ReachesSure(s, x, y);
    assert Look(true);
  }
}
