/** The class `Json` of components/controller/json.cpp: a cursor over a text and a fixed array of
    tokens, filled by recursive descent. */
module Jsons {
  import opened Wrappers
  import opened JsonSyntax
  import opened JsonLexer
  import opened JsonScan
  import opened JsonLexical
  import opened JsonLists
  import opened JsonMachine
  import opened JsonSound
  import opened JsonText
  import opened JsonStrings
  import opened JsonNodes

  const NO_TOKEN := Token(0, 0, 0, Nothing)

  /** Between calls of `value`: the text before the cursor is that of the open containers `k`. */
  ghost predicate Ready(s: string, pos: nat, count: nat, k: Stack) {
    pos <= |s| && count <= MAX_TOKENS && Sure(s, Entry(pos, count, k))
  }

  /** The list of the container that stands inside `k`, after `gap`, starts at `start`. */
  ghost predicate StartsAt(s: string, k: Stack, gap: string, open: char, lead: string, start: nat) {
    forall b {:trigger Look(b)} :: Look(b) ==> PastOpening(s, Open(s, k), gap, open, lead) == Some(start)
  }

  function Entry(pos: nat, count: nat, k: Stack): State
    requires count <= MAX_TOKENS
  {
    Expect(pos, MAX_TOKENS - count, k)
  }

  lemma ReadScanned(s: string, pos: nat, count: nat, k: Stack, gap: string, t: Tree, end: nat, left: nat)
    requires Ready(s, pos, count, k) && Reaches(s, Entry(pos, count, k), Got(gap, t, end, left, k))
    ensures Scan(s, PastSpace(s, Some(pos), gap), t, Depth(k)) == Some(end) && end <= |s|
    ensures left + count + Count(t) == MAX_TOKENS
  {
    assert Look(true);
    ReachesOk(s, Entry(pos, count, k), Got(gap, t, end, left, k));
  }

  lemma GapThen(s: string, pos: nat, gap: string, t: Tree, depth: nat, end: nat)
    requires Scan(s, PastSpace(s, Some(pos), gap), t, depth) == Some(end)
    ensures Scan(s, Some(pos + |gap|), t, depth) == Some(end)
  {
    ScanNone(s, t, depth);
  }

  /** What a value that has been read is: spelled where it was, and as wide and as long as its tree. */
  lemma ReadOk(s: string, pos: nat, count: nat, k: Stack, gap: string, t: Tree, end: nat, left: nat)
    requires Ready(s, pos, count, k) && Reaches(s, Entry(pos, count, k), Got(gap, t, end, left, k))
    ensures end == pos + |gap| + Width(t) <= |s| && left + count + Count(t) == MAX_TOKENS
    ensures Scan(s, Some(pos + |gap|), t, Depth(k)) == Some(end)
  {
    ReadScanned(s, pos, count, k, gap, t, end, left);
    GapThen(s, pos, gap, t, Depth(k), end);
    ScanWidth(s, pos + |gap|, t, Depth(k));
  }

  lemma ReadWidth(s: string, pos: nat, count: nat, k: Stack, gap: string, t: Tree, end: nat, left: nat)
    requires Ready(s, pos, count, k) && Reaches(s, Entry(pos, count, k), Got(gap, t, end, left, k))
    ensures end == pos + |gap| + Width(t) <= |s| && left + count + Count(t) == MAX_TOKENS
  {
    ReadOk(s, pos, count, k, gap, t, end, left);
  }

  /** The list of an object, in the text at `start` and in the array from `base` on. */
  ghost predicate Listed(toks: seq<Token>, s: string, ms: Members, start: nat, depth: nat, base: nat) {
    forall b {:trigger Look(b)} ::
      Look(b) ==> HoldsMembers(toks, ms, start, base) && ScanMembers(s, Some(start), ms, depth).Some?
  }

  lemma WalkListed(toks: seq<Token>, s: string, ms: Members, start: nat, depth: nat, base: nat, n: nat)
    requires Listed(toks, s, ms, start, depth, base) && n < Len(ms)
    ensures var i, m := base + CountMembers(Take(ms, n)), Take(ms, n + 1);
            && m.Member? && m.init == Take(ms, n) && i + 1 < |toks| && i + 1 < base + CountMembers(ms)
            && toks[i + 1].end == base + CountMembers(m) && toks[i].start + toks[i].len <= |s|
            && s[toks[i].start..toks[i].start + toks[i].len] == m.key
  {
    assert Look(true);
    WalkMembers(toks, s, ms, start, depth, base, n);
  }

  lemma ReadyNext(s: string, x: State, pos: nat, count: nat, k: Stack)
    requires Sure(s, x) && count <= MAX_TOKENS && Reaches(s, x, Entry(pos, count, k))
    ensures Ready(s, pos, count, k)
  {
    assert Look(true);
    ReachesOk(s, x, Entry(pos, count, k));
  }

  lemma ListReady(s: string, pos: nat, count: nat, k: Stack, start: nat, toks: seq<Token>, base: nat)
    requires Ready(s, pos, count, k) && k.On? && k.frame.InObject?
    requires StartsAt(s, k.below, k.frame.gap, '{', k.frame.lead, start)
    requires HoldsMembers(toks, k.frame.members, start, base)
    ensures Listed(toks, s, k.frame.members, start, Depth(k), base)
  {
    assert Look(true);
  }

  /** The entry whose key has been read, with no value yet. */
  function Pending(f: Frame): Members
    requires f.InMember?
  {
    Member(f.members, f.keyGap, f.key, f.beforeColon, "", Lit(Null), "")
  }

  lemma MemberAdds(m: Members, start: nat)
    requires m.Member?
    ensures start + WidthMembers(m) == ValueAt(m, start) + Width(m.val) + |m.after|
    ensures CountMembers(m) == CountMembers(m.init) + 1 + Count(m.val)
  {
  }

  lemma ItemAdds(m: Items, start: nat)
    requires m.Item?
    ensures start + WidthItems(m) == ItemAt(m, start) + Width(m.val) + |m.after|
  {
  }

  /** No value can be read here. */
  lemma NoValue(s: string, pos: nat, room: nat, k: Stack)
    requires pos <= |s| && (Depth(k) > MAX_DEPTH || room == 0 || SkipSpace(s, pos) == |s|)
    ensures Reaches(s, Expect(pos, room, k), Failed)
  {
    StepReaches(s, Expect(pos, room, k));
  }

  lemma Assoc(a: seq<Token>, b: seq<Token>, c: seq<Token>, d: seq<Token>)
    ensures a + b + c + d == a + (b + c + d) && a + b + d == a + (b + d)
  {
  }

  lemma MemberTokensAre(m: Members, start: nat, base: nat, init: seq<Token>, key: seq<Token>, val: seq<Token>)
    requires m.Member? && init == MemberTokens(m.init, start, base)
    requires key == [Head(Str(m.key), KeyAt(m, start), base + CountMembers(m.init))]
    requires val == Tokens(m.val, ValueAt(m, start), base + CountMembers(m.init) + 1)
    ensures MemberTokens(m, start, base) == init + key + val
  {
  }

  lemma ItemTokensAre(m: Items, start: nat, base: nat, init: seq<Token>, val: seq<Token>)
    requires m.Item? && init == ItemTokens(m.init, start, base)
    requires val == Tokens(m.val, ItemAt(m, start), base + CountItems(m.init))
    ensures ItemTokens(m, start, base) == init + val
  {
  }

  /** After the value of an entry the run goes on with its separator, or fails. */
  lemma MemberEnds(s: string, x: State, gap: string, val: Tree, pos: nat, room: nat, k: Stack)
    requires Reaches(s, x, Got(gap, val, pos, room, k)) && pos <= |s| && k.On? && k.frame.InMember?
    ensures var z, f := SkipSpace(s, pos), k.frame;
            if z == |s| then Reaches(s, x, Failed)
            else
              var m := Pending(f).(afterColon := gap, val := val, after := s[pos..z]);
              Reaches(s, x, AfterEntry(s[z], '}', Got(f.gap, Obj(f.lead, m), z + 1, room, k.below),
                                       Expect(z + 1, room, On(k.below, InObject(f.gap, f.lead, m)))))
  {
    StepReaches(s, Got(gap, val, pos, room, k));
    ReachesOn(s, x, Got(gap, val, pos, room, k), StepGot(s, gap, val, pos, room, k));
  }

  lemma ItemEnds(s: string, x: State, gap: string, val: Tree, pos: nat, room: nat, k: Stack)
    requires Reaches(s, x, Got(gap, val, pos, room, k)) && pos <= |s| && k.On? && k.frame.InArray?
    ensures var z, f := SkipSpace(s, pos), k.frame;
            if z == |s| then Reaches(s, x, Failed)
            else
              var m := Item(f.items, gap, val, s[pos..z]);
              Reaches(s, x, AfterEntry(s[z], ']', Got(f.gap, Arr(f.lead, m), z + 1, room, k.below),
                                       Expect(z + 1, room, On(k.below, InArray(f.gap, f.lead, m)))))
  {
    StepReaches(s, Got(gap, val, pos, room, k));
    ReachesOn(s, x, Got(gap, val, pos, room, k), StepGot(s, gap, val, pos, room, k));
  }

  lemma KeyEnds(s: string, x: State, gap: string, t: Tree, pos: nat, room: nat, k: Stack)
    requires Reaches(s, x, Got(gap, t, pos, room, k)) && pos <= |s| && k.On? && k.frame.InObject?
    ensures var z, f := SkipSpace(s, pos), k.frame;
            if GoodKey(t, f.members) && z < |s| && s[z] == ':'
            then Reaches(s, x, Expect(z + 1, room, On(k.below, InMember(f.gap, f.lead, f.members, gap, t.raw, s[pos..z]))))
            else Reaches(s, x, Failed)
  {
    StepReaches(s, Got(gap, t, pos, room, k));
    ReachesOn(s, x, Got(gap, t, pos, room, k), StepGot(s, gap, t, pos, room, k));
  }

  /** The width of an entry once its value has been read. */
  lemma MemberWidthDone(s: string, k: Stack, start: nat, pos: nat, count: nat, gap: string, val: Tree, end: nat, left: nat)
    requires Ready(s, pos, count, k) && Reaches(s, Entry(pos, count, k), Got(gap, val, end, left, k)) && k.On? && k.frame.InMember?
    requires pos == ColonAt(Pending(k.frame), start) + 1
    ensures end <= |s|
    ensures var m := Pending(k.frame).(afterColon := gap, val := val, after := s[end..SkipSpace(s, end)]);
            && SkipSpace(s, end) == start + WidthMembers(m) && ValueAt(m, start) == pos + |gap|
            && KeyAt(m, start) == KeyAt(Pending(k.frame), start)
  {
    ReadWidth(s, pos, count, k, gap, val, end, left);
    MemberAdds(Pending(k.frame).(afterColon := gap, val := val, after := s[end..SkipSpace(s, end)]), start);
  }

  /** The width of an entry once its key has been read. */
  lemma KeyWidthDone(start: nat, pos: nat, f: Frame)
    requires f.InMember? && pos == start + WidthMembers(f.members) + (if f.members.NoMembers? then 0 else 1)
    ensures var m := Pending(f);
            && KeyAt(m, start) == pos + |f.keyGap| && m.init == f.members && m.key == f.key
            && ColonAt(m, start) == pos + |f.keyGap| + 2 + |f.key| + |f.beforeColon|
  {
  }

  lemma ItemWidthDone(s: string, k: Stack, start: nat, pos: nat, count: nat, gap: string, val: Tree, end: nat, left: nat)
    requires Ready(s, pos, count, k) && Reaches(s, Entry(pos, count, k), Got(gap, val, end, left, k)) && k.On? && k.frame.InArray?
    requires pos == start + WidthItems(k.frame.items) + (if k.frame.items.NoItems? then 0 else 1)
    ensures end <= |s|
    ensures var m := Item(k.frame.items, gap, val, s[end..SkipSpace(s, end)]);
            SkipSpace(s, end) == start + WidthItems(m) && ItemAt(m, start) == pos + |gap|
  {
    ReadWidth(s, pos, count, k, gap, val, end, left);
    ItemAdds(Item(k.frame.items, gap, val, s[end..SkipSpace(s, end)]), start);
  }

  /** The opening of a container, and where its list starts. */
  lemma ContainerOpens(s: string, p0: nat, idx: nat, k: Stack)
    requires Ready(s, p0, idx, k) && idx < MAX_TOKENS && Depth(k) <= MAX_DEPTH
    requires var q := SkipSpace(s, p0); q < |s| && (s[q] == '{' || s[q] == '[')
    ensures var q := SkipSpace(s, p0);
            var p := SkipSpace(s, q + 1);
            var gap, lead, x, room := s[p0..q], s[q + 1..p], Entry(p0, idx, k), MAX_TOKENS - idx - 1;
            && StartsAt(s, k, gap, s[q], lead, p) && p <= |s|
            && (s[q] == '{' ==> Reaches(s, x, if p < |s| && s[p] == '}' then Got(gap, Obj(lead, NoMembers), p + 1, room, k)
                                              else Expect(p, room, On(k, InObject(gap, lead, NoMembers)))))
            && (s[q] == '[' ==> Reaches(s, x, if p < |s| && s[p] == ']' then Got(gap, Arr(lead, NoItems), p + 1, room, k)
                                              else Expect(p, room, On(k, InArray(gap, lead, NoItems)))))
  {
    assert Look(true);
    var q := SkipSpace(s, p0);
    SkipSpaceSound(s, p0);
    SkipSpaceSound(s, q + 1);
    StepReaches(s, Entry(p0, idx, k));
  }

  /** The tokens of a value after its first. */
  function Rest(t: Tree, start: nat, base: nat): seq<Token> {
    if t.Obj? then MemberTokens(t.members, start + 1 + |t.lead|, base + 1)
    else if t.Arr? then ItemTokens(t.items, start + 1 + |t.lead|, base + 1)
    else []
  }

  /** The first token of a value that has been read, but for its length and end. */
  predicate Begun(h: Token, t: Tree, start: nat) {
    && h.kind == Kind(t) && h.start == (if t.Str? then start + 1 else start) && (t.Str? ==> h.len == |t.raw|)
  }

  lemma TokenOf(toks: seq<Token>, before: seq<Token>, t: Tree, start: nat)
    requires toks == before + Tokens(t, start, |before|)
    ensures |before| < |toks| && toks[|before|] == Head(t, start, |before|) && toks[..|before|] == before
  {
  }

  lemma Suffix(toks: seq<Token>, a: seq<Token>, b: seq<Token>)
    requires toks == a + b
    ensures |toks| == |a| + |b| && toks[|a|..|a| + |b|] == b
  {
  }

  /** What follows a separator in an object or an array. */
  function AfterEntry(c: char, close: char, done: State, next: State): State {
    if c == close then done else if c == ',' then next else Failed
  }

  /** A text that the machine fails on renders no tree. */
  lemma NeverRenders(s: string)
    requires Reaches(s, START, Failed)
    ensures !exists l, t, r :: Renders(s, l, t, r)
  {
    forall l, t, r
      ensures !Renders(s, l, t, r)
    {
      ParsedIffRendered(s, l, t, r);
      if Renders(s, l, t, r) {
        EndsAgree(s, START, Failed, Parsed(l, t, r));
      }
    }
  }

  /** What `parse` makes of the value at its start. */
  lemma ParseEnds(s: string, gap: string, t: Tree, pos: nat, room: nat)
    requires pos <= |s| && Reaches(s, START, Got(gap, t, pos, room, Bottom))
    ensures Reaches(s, START, if SkipSpace(s, pos) == |s| then Parsed(gap, t, s[pos..SkipSpace(s, pos)]) else Failed)
  {
    StepReaches(s, Got(gap, t, pos, room, Bottom));
    ReachesOn(s, START, Got(gap, t, pos, room, Bottom), StepGot(s, gap, t, pos, room, Bottom));
  }

  class Json {
    var input: string
    var pos: nat
    var count: nat
    const tokens: array<Token>
    ghost var lead: string
    ghost var tree: Tree
    ghost var trail: string

    constructor ()
      ensures Valid() && count == 0 && fresh(tokens)
    {
      tokens := new Token[MAX_TOKENS](_ => NO_TOKEN);
      input, pos, count := "", 0, 0;
      lead, tree, trail := "", Lit(Null), "";
    }

    /** Nothing parsed, or the tokens of the tree that the text renders. */
    ghost predicate Valid()
      reads this, tokens
    {
      && tokens.Length == MAX_TOKENS && count <= MAX_TOKENS
      && (count > 0 ==>
            && Renders(input, lead, tree, trail) && count == Count(tree)
            && Holds(tokens[..count], Node(tree, |lead|, 0), 0)
            && Scan(input, Some(|lead|), tree, 0).Some?)
    }

    method Ws()
      requires pos <= |input|
      modifies this`pos
      ensures pos == SkipSpace(input, old(pos))
    {
      while pos < |input| && IsSpace(input[pos])
        invariant old(pos) <= pos <= |input| && SkipSpace(input, pos) == SkipSpace(input, old(pos))
      {
        pos := pos + 1;
      }
    }

    method SkipRun()
      requires pos <= |input|
      modifies this`pos
      ensures pos == SkipDigits(input, old(pos))
    {
      while pos < |input| && IsDigit(input[pos])
        invariant old(pos) <= pos <= |input| && SkipDigits(input, pos) == SkipDigits(input, old(pos))
      {
        pos := pos + 1;
      }
    }

    /** Past the closing quote of the string whose opening quote is at the cursor. */
    method Quoted() returns (ok: bool)
      requires pos < |input|
      modifies this`pos
      ensures ok <==> Close(input, old(pos) + 1).Some?
      ensures ok ==> pos == Close(input, old(pos) + 1).value + 1
    {
      pos := pos + 1;
      ghost var start := pos;
      while pos < |input|
        invariant start <= pos <= |input| && Close(input, pos) == Close(input, start)
      {
        var c := input[pos];
        pos := pos + 1;
        if c == '\"' {
          return true;
        }
        if c < ' ' {
          return false;
        }
        if c == '\\' {
          if pos == |input| {
            return false;
          }
          var e := input[pos];
          pos := pos + 1;
          if e == 'u' {
            var hex := pos;
            for j := 0 to 4
              invariant pos == hex + j <= |input| && HexAt(input, hex, j)
            {
              if pos == |input| || !IsHex(input[pos]) {
                return false;
              }
              pos := pos + 1;
            }
          } else if !IsEscape(e) {
            return false;
          }
        }
      }
      ok := false;
    }

    method SkipFraction() returns (ok: bool)
      requires pos <= |input|
      modifies this`pos
      ensures ok <==> ReadFraction(input, old(pos)).Done?
      ensures ok ==> pos == ReadFraction(input, old(pos)).pos
    {
      if pos < |input| && input[pos] == '.' {
        pos := pos + 1;
        var begin := pos;
        SkipRun();
        if begin == pos {
          return false;
        }
      }
      ok := true;
    }

    method SkipExponent() returns (ok: bool)
      requires pos <= |input|
      modifies this`pos
      ensures ok <==> ReadExponent(input, old(pos)).Done?
      ensures ok ==> pos == ReadExponent(input, old(pos)).pos
    {
      if pos < |input| && (input[pos] == 'e' || input[pos] == 'E') {
        pos := pos + 1;
        if pos < |input| && (input[pos] == '+' || input[pos] == '-') {
          pos := pos + 1;
        }
        var begin := pos;
        SkipRun();
        if begin == pos {
          return false;
        }
      }
      ok := true;
    }

    method SkipNumber() returns (ok: bool)
      requires pos < |input|
      modifies this`pos
      ensures ok <==> ReadNumeral(input, old(pos)).Done?
      ensures ok ==> pos == ReadNumeral(input, old(pos)).pos
    {
      if input[pos] == '-' {
        pos := pos + 1;
      }
      if pos == |input| || !IsDigit(input[pos]) {
        return false;
      }
      if input[pos] == '0' {
        pos := pos + 1;
      } else {
        SkipRun();
      }
      ok := SkipFraction();
      if ok {
        ok := SkipExponent();
      }
    }

    /** A string, word or number at the cursor, into token `idx`. */
    method Scalar(idx: nat) returns (ok: bool)
      requires pos < |input| && idx < tokens.Length && input[pos] != '{' && input[pos] != '['
      requires tokens[idx].start == pos
      modifies this`pos, tokens
      ensures ok <==> ReadScalar(input, old(pos)).Done?
      ensures forall j | 0 <= j < tokens.Length && j != idx :: tokens[j] == old(tokens[j])
      ensures ok ==>
                var r := ReadScalar(input, old(pos));
                pos == r.pos && tokens[idx] == old(tokens[idx]).(
                  start := if r.part.Str? then old(pos) + 1 else old(pos), kind := Kind(r.part),
                  len := if r.part.Str? then |r.part.raw| else old(tokens[idx]).len)
    {
      var c := input[pos];
      if c == '\"' {
        var start := pos + 1;
        tokens[idx] := tokens[idx].(kind := String, start := start);
        ok := Quoted();
        if ok {
          tokens[idx] := tokens[idx].(len := pos - start - 1);
        }
      } else if c == 't' || c == 'f' || c == 'n' {
        var word := if c == 't' then "true" else if c == 'f' then "false" else "null";
        if !(pos + |word| <= |input| && input[pos..pos + |word|] == word) {
          return false;
        }
        pos := pos + |word|;
        tokens[idx] := tokens[idx].(kind := if c == 'n' then Nothing else Bool);
        ok := true;
      } else {
        tokens[idx] := tokens[idx].(kind := Number);
        ok := SkipNumber();
      }
    }

    /** Whether the object whose token is `idx` has the key already; `k` is the token of this one. */
    method Repeats(idx: nat, k: nat, key: string, ghost ms: Members, ghost start: nat, ghost depth: nat) returns (found: bool)
      requires tokens.Length == MAX_TOKENS && idx < k < count <= tokens.Length
      requires Listed(tokens[..k], input, ms, start, depth, idx + 1) && k == idx + 1 + CountMembers(ms)
      ensures found <==> HasKey(ms, key)
    {
      var prev := idx + 1;
      ghost var n := 0;
      TakeGrows(ms, n);
      while prev < k
        invariant n <= Len(ms) && prev == idx + 1 + CountMembers(Take(ms, n)) && prev <= k
        invariant n < Len(ms) <==> prev < k
        invariant !HasKey(Take(ms, n), key) && (n == Len(ms) ==> Take(ms, n) == ms)
        decreases Len(ms) - n
      {
        WalkListed(tokens[..k], input, ms, start, depth, idx + 1, n);
        if input[tokens[prev].start..tokens[prev].start + tokens[prev].len] == key {
          KeyOfTake(ms, n + 1, key);
          return true;
        }
        prev := tokens[prev + 1].end;
        n := n + 1;
        TakeGrows(ms, n);
      }
      found := false;
    }

    /** Whether the value with token `i`, in the object with token `idx`, may be a key of it. */
    method IsKey(idx: nat, i: nat, ghost t: Tree, ghost at: nat, ghost ms: Members, ghost start: nat, ghost depth: nat)
      returns (ok: bool, ghost key: string)
      requires tokens.Length == MAX_TOKENS && idx < i < count <= tokens.Length && tokens[i] == Head(t, at, i)
      requires Scan(input, Some(at), t, depth).Some?
      requires Listed(tokens[..i], input, ms, start, depth, idx + 1) && i == idx + 1 + CountMembers(ms)
      ensures ok <==> GoodKey(t, ms)
      ensures ok ==> t == Str(key)
    {
      key, ok := "", false;
      if tokens[i].kind != String {
        return;
      }
      key := t.raw;
      SliceIs(input, at + 1, t.raw);
      var text := input[tokens[i].start..tokens[i].start + tokens[i].len];
      if '\\' in text {
        return;
      }
      var again := Repeats(idx, i, text, ms, start, depth);
      ok := !again;
    }

    /** A string that may be a key. */
    method KeyText(idx: nat, depth: nat, ghost k: Stack, ghost start: nat) returns (ok: bool, ghost gap: string, ghost key: string)
      requires tokens.Length == MAX_TOKENS && k.On? && k.frame.InObject? && Ready(input, pos, count, k) && depth == Depth(k)
      requires HoldsMembers(tokens[..count], k.frame.members, start, idx + 1) && count == idx + 1 + CountMembers(k.frame.members)
      requires StartsAt(input, k.below, k.frame.gap, '{', k.frame.lead, start)
      modifies this`pos, this`count, tokens
      ensures count <= MAX_TOKENS
      ensures var x := Entry(old(pos), old(count), k);
              if !ok then Reaches(input, x, Failed)
              else
                && Reaches(input, x, Got(gap, Str(key), pos, MAX_TOKENS - count, k)) && GoodKey(Str(key), k.frame.members)
                && old(pos) < pos <= |input|
                && tokens[..count] == old(tokens[..count]) + [Head(Str(key), old(pos) + |gap|, old(count))]
      decreases |input| - pos, 4
    {
      ghost var x, p0, before := Entry(pos, count, k), pos, tokens[..count];
      ghost var t, r;
      var i;
      ok, key := false, "";
      i, gap, t, r := Value(depth, k);
      if i < 0 {
        return;
      }
      ReadOk(input, p0, i, k, gap, t, pos, MAX_TOKENS - count);
      TokenOf(tokens[..count], before, t, p0 + |gap|);
      assert tokens[..i] == tokens[..count][..i];
      ListReady(input, p0, i, k, start, tokens[..i], idx + 1);
      ok, key := IsKey(idx, i, t, p0 + |gap|, k.frame.members, start, depth);
      if !ok {
        KeyEnds(input, x, gap, t, pos, MAX_TOKENS - count, k);
      }
    }

    /** A key and its colon. */
    method Key(idx: nat, depth: nat, ghost k: Stack, ghost start: nat) returns (ok: bool, ghost gap: string, ghost key: string, ghost beforeColon: string)
      requires tokens.Length == MAX_TOKENS && k.On? && k.frame.InObject? && Ready(input, pos, count, k) && depth == Depth(k)
      requires HoldsMembers(tokens[..count], k.frame.members, start, idx + 1) && count == idx + 1 + CountMembers(k.frame.members)
      requires StartsAt(input, k.below, k.frame.gap, '{', k.frame.lead, start)
      modifies this`pos, this`count, tokens
      ensures count <= MAX_TOKENS
      ensures var f, x := k.frame, Entry(old(pos), old(count), k);
              if !ok then Reaches(input, x, Failed)
              else
                && Reaches(input, x, Entry(pos, count, On(k.below, InMember(f.gap, f.lead, f.members, gap, key, beforeColon))))
                && pos == old(pos) + |gap| + 2 + |key| + |beforeColon| + 1 && pos <= |input| && count == old(count) + 1
                && tokens[..count] == old(tokens[..count]) + [Head(Str(key), old(pos) + |gap|, old(count))]
      decreases |input| - pos, 5
    {
      ghost var x, p0, n := Entry(pos, count, k), pos, count;
      beforeColon := "";
      ok, gap, key := KeyText(idx, depth, k, start);
      if !ok {
        return;
      }
      ReadWidth(input, p0, n, k, gap, Str(key), pos, MAX_TOKENS - count);
      KeyEnds(input, x, gap, Str(key), pos, MAX_TOKENS - count, k);
      ghost var p1 := pos;
      Ws();
      beforeColon := input[p1..pos];
      if pos == |input| || input[pos] != ':' {
        return false, gap, key, beforeColon;
      }
      pos := pos + 1;
    }

    /** One value at the cursor, after white space: its token and those below it are appended. `k` is
        what is open around it, `t` the tree it has and `gap` the white space before it. */
    method Value(depth: nat, ghost k: Stack) returns (idx: int, ghost gap: string, ghost t: Tree, ghost r: seq<Token>)
      requires tokens.Length == MAX_TOKENS && Ready(input, pos, count, k) && depth == Depth(k)
      modifies this`pos, this`count, tokens
      ensures count <= MAX_TOKENS
      ensures var x := Entry(old(pos), old(count), k);
              if idx < 0 then idx == -1 && Reaches(input, x, Failed)
              else
                && idx == old(count) && old(pos) < pos <= |input| && old(pos) + |gap| <= |input|
                && Reaches(input, x, Got(gap, t, pos, MAX_TOKENS - count, k))
                && tokens[..count] == old(tokens[..count]) + r && r == Tokens(t, old(pos) + |gap|, idx)
      decreases |input| - pos, 3
    {
      ghost var p0, n0, before := pos, count, tokens[..count];
      ghost var x := Entry(pos, count, k);
      Ws();
      gap, t, r := input[p0..pos], Lit(Null), [];
      if depth > MAX_DEPTH || count == tokens.Length || pos == |input| {
        NoValue(input, p0, MAX_TOKENS - count, k);
        return -1, gap, t, r;
      }
      idx := count;
      count := count + 1;
      tokens[idx] := tokens[idx].(start := pos);
      assert tokens[..idx] == before;
      var ok;
      ghost var h;
      ok, t, h, r := AnyValue(idx, depth, p0, k);
      if !ok {
        return -1, gap, t, r;
      }
      ReadWidth(input, p0, n0, k, gap, t, pos, MAX_TOKENS - count);
      r := Finish(idx, before, h, r, t, p0 + |gap|);
    }

    /** The rest of the first token of a value that has been read. */
    method Finish(idx: nat, ghost before: seq<Token>, ghost h: Token, ghost rest: seq<Token>, ghost t: Tree, ghost start: nat)
      returns (ghost all: seq<Token>)
      requires tokens.Length == MAX_TOKENS && idx < count <= MAX_TOKENS && |before| == idx
      requires pos == start + Width(t) && count == idx + Count(t)
      requires Begun(h, t, start) && tokens[..count] == before + [h] + rest && rest == Rest(t, start, idx)
      modifies tokens
      ensures tokens[..count] == before + all && all == Tokens(t, start, idx)
    {
      ghost var was := tokens[..count];
      assert tokens[idx] == was[idx] == h;
      if tokens[idx].kind != String {
        tokens[idx] := tokens[idx].(len := pos - tokens[idx].start);
      }
      tokens[idx] := tokens[idx].(end := count);
      all := [tokens[idx]] + rest;
      assert tokens[..count] == before + [tokens[idx]] + rest;
      Assoc(before, [tokens[idx]], [], rest);
    }

    /** What stands at the cursor: everything of it but the rest of token `idx`. */
    method AnyValue(idx: nat, depth: nat, ghost p0: nat, ghost k: Stack) returns (ok: bool, ghost t: Tree, ghost h: Token, ghost r: seq<Token>)
      requires tokens.Length == MAX_TOKENS && count == idx + 1 <= MAX_TOKENS && Ready(input, p0, idx, k) && depth == Depth(k)
      requires SkipSpace(input, p0) == pos < |input| && depth <= MAX_DEPTH && tokens[idx].start == pos
      modifies this`pos, this`count, tokens
      ensures count <= MAX_TOKENS
      ensures var x, gap := Entry(p0, idx, k), input[p0..old(pos)];
              if !ok then Reaches(input, x, Failed)
              else
                && Reaches(input, x, Got(gap, t, pos, MAX_TOKENS - count, k)) && old(pos) < pos <= |input|
                && Begun(h, t, old(pos)) && tokens[..count] == old(tokens[..idx]) + [h] + r && r == Rest(t, old(pos), idx)
      decreases |input| - pos, 2
    {
      var c := input[pos];
      if c == '{' {
        ok, t, h, r := ObjectValue(idx, depth, p0, k);
      } else if c == '[' {
        ok, t, h, r := ArrayValue(idx, depth, p0, k);
      } else {
        ok, t, h, r := ScalarValue(idx, depth, p0, k);
      }
    }

    method ScalarValue(idx: nat, depth: nat, ghost p0: nat, ghost k: Stack) returns (ok: bool, ghost t: Tree, ghost h: Token, ghost r: seq<Token>)
      requires tokens.Length == MAX_TOKENS && count == idx + 1 <= MAX_TOKENS && Ready(input, p0, idx, k) && depth == Depth(k)
      requires SkipSpace(input, p0) == pos < |input| && input[pos] != '{' && input[pos] != '[' && depth <= MAX_DEPTH
      requires tokens[idx].start == pos
      modifies this`pos, tokens
      ensures var x, gap := Entry(p0, idx, k), input[p0..old(pos)];
              if !ok then Reaches(input, x, Failed)
              else
                && Reaches(input, x, Got(gap, t, pos, MAX_TOKENS - count, k)) && old(pos) < pos <= |input|
                && Begun(h, t, old(pos)) && tokens[..count] == old(tokens[..idx]) + [h] + r && r == Rest(t, old(pos), idx)
    {
      StepReaches(input, Entry(p0, idx, k));
      t, h, r := Lit(Null), NO_TOKEN, [];
      ok := Scalar(idx);
      if ok {
        t, h := ReadScalar(input, old(pos)).part, tokens[idx];
      }
    }

    /** The key and the value of an entry of an object, up to and past the separator after it. */
    method KeyAndValue(idx: nat, depth: nat, ghost k: Stack, ghost x: State, ghost start: nat)
      returns (ok: bool, sep: char, ghost m: Members, ghost h: seq<Token>, ghost r: seq<Token>)
      requires tokens.Length == MAX_TOKENS && k.On? && k.frame.InObject? && Ready(input, pos, count, k) && depth == Depth(k)
      requires Reaches(input, x, Entry(pos, count, k)) && StartsAt(input, k.below, k.frame.gap, '{', k.frame.lead, start)
      requires pos == start + WidthMembers(k.frame.members) + (if k.frame.members.NoMembers? then 0 else 1)
      requires HoldsMembers(tokens[..count], k.frame.members, start, idx + 1) && count == idx + 1 + CountMembers(k.frame.members)
      modifies this`pos, this`count, tokens
      ensures count <= MAX_TOKENS
      ensures if !ok then Reaches(input, x, Failed)
              else
                && m.Member? && m.init == k.frame.members && old(pos) < pos <= |input| && pos == start + WidthMembers(m) + 1
                && Reaches(input, x, AfterEntry(sep, '}', Got(k.frame.gap, Obj(k.frame.lead, m), pos, MAX_TOKENS - count, k.below),
                                                Entry(pos, count, On(k.below, InObject(k.frame.gap, k.frame.lead, m)))))
                && tokens[..count] == old(tokens[..count]) + h + r
                && h == [Head(Str(m.key), KeyAt(m, start), old(count))] && r == Tokens(m.val, ValueAt(m, start), old(count) + 1)
      decreases |input| - pos, 6
    {
      ghost var x1, n := Entry(pos, count, k), count;
      m, sep, h, r := NoMembers, ' ', [], [];
      ghost var keyGap, key, beforeColon;
      ok, keyGap, key, beforeColon := Key(idx, depth, k, start);
      if !ok {
        ReachesOn(input, x, x1, Failed);
        return;
      }
      ghost var f := InMember(k.frame.gap, k.frame.lead, k.frame.members, keyGap, key, beforeColon);
      ghost var k2 := On(k.below, f);
      KeyWidthDone(start, x1.pos, f);
      ReadyNext(input, x1, pos, count, k2);
      ReachesOn(input, x, x1, Entry(pos, count, k2));
      h := [Head(Str(key), x1.pos + |keyGap|, n)];
      ok, sep, m, r := EntryValue(depth, k2, x, start);
    }

    /** One entry of an object, up to and past the separator after it; `x` is where the run began. */
    method ObjectEntry(idx: nat, depth: nat, ghost gap: string, ghost lead: string, ghost done: Members, ghost k: Stack,
                     ghost x: State, ghost start: nat, ghost before: seq<Token>, ghost acc: seq<Token>)
      returns (ok: bool, sep: char, ghost m: Members, ghost all: seq<Token>)
      requires tokens.Length == MAX_TOKENS && depth == Depth(k) && Ready(input, pos, count, On(k, InObject(gap, lead, done)))
      requires Reaches(input, x, Entry(pos, count, On(k, InObject(gap, lead, done))))
      requires StartsAt(input, k, gap, '{', lead, start)
      requires pos == start + WidthMembers(done) + (if done.NoMembers? then 0 else 1)
      requires |before| == idx + 1 && tokens[..count] == before + acc && acc == MemberTokens(done, start, idx + 1)
      modifies this`pos, this`count, tokens
      ensures count <= MAX_TOKENS
      ensures if !ok then Reaches(input, x, Failed)
              else
                && m.Member? && old(pos) < pos <= |input| && pos == start + WidthMembers(m) + 1
                && Reaches(input, x, AfterEntry(sep, '}', Got(gap, Obj(lead, m), pos, MAX_TOKENS - count, k),
                                                Entry(pos, count, On(k, InObject(gap, lead, m)))))
                && tokens[..count] == before + all && all == MemberTokens(m, start, idx + 1)
      decreases |input| - pos, 7
    {
      ghost var h, r;
      all := acc;
      Suffix(tokens[..count], before, acc);
      ok, sep, m, h, r := KeyAndValue(idx, depth + 1, On(k, InObject(gap, lead, done)), x, start);
      if ok {
        all := acc + h + r;
        MemberTokensAre(m, start, idx + 1, acc, h, r);
        Assoc(before, acc, h, r);
      }
    }

    /** The value of an entry whose key has been read. */
    method EntryValue(depth: nat, ghost k: Stack, ghost x: State, ghost start: nat)
      returns (ok: bool, sep: char, ghost m: Members, ghost r: seq<Token>)
      requires tokens.Length == MAX_TOKENS && depth == Depth(k) && Ready(input, pos, count, k) && k.On? && k.frame.InMember?
      requires Reaches(input, x, Entry(pos, count, k)) && pos == ColonAt(Pending(k.frame), start) + 1
      modifies this`pos, this`count, tokens
      ensures count <= MAX_TOKENS
      ensures if !ok then Reaches(input, x, Failed)
              else
                && m.Member? && old(pos) < pos <= |input| && pos == start + WidthMembers(m) + 1
                && Reaches(input, x, AfterEntry(sep, '}', Got(k.frame.gap, Obj(k.frame.lead, m), pos, MAX_TOKENS - count, k.below),
                                                Entry(pos, count, On(k.below, InObject(k.frame.gap, k.frame.lead, m)))))
                && m == Pending(k.frame).(afterColon := m.afterColon, val := m.val, after := m.after)
                && tokens[..count] == old(tokens[..count]) + r && r == Tokens(m.val, ValueAt(m, start), old(count))
      decreases |input| - pos, 4
    {
      ghost var f, x1 := k.frame, Entry(pos, count, k);
      m, sep, ok, r := NoMembers, ' ', false, [];
      var i;
      ghost var afterColon, val;
      i, afterColon, val, r := Value(depth, k);
      if i < 0 {
        ReachesOn(input, x, x1, Failed);
        return;
      }
      MemberWidthDone(input, k, start, x1.pos, i, afterColon, val, pos, MAX_TOKENS - count);
      ReachesOn(input, x, x1, Got(afterColon, val, pos, MAX_TOKENS - count, k));
      MemberEnds(input, x, afterColon, val, pos, MAX_TOKENS - count, k);
      ghost var p1 := pos;
      Ws();
      m := Pending(f).(afterColon := afterColon, val := val, after := input[p1..pos]);
      if pos == |input| {
        return;
      }
      sep := input[pos];
      pos := pos + 1;
      ok := true;
    }

    /** The opening of a container: the kind of its token, and the white space after its bracket. */
    method Enter(idx: nat, kind: Type) returns (ghost h: Token, ghost lead: string)
      requires tokens.Length == MAX_TOKENS && count == idx + 1 <= MAX_TOKENS && pos < |input|
      modifies this`pos, tokens
      ensures pos == SkipSpace(input, old(pos) + 1) && lead == input[old(pos) + 1..pos]
      ensures h == old(tokens[idx]).(kind := kind) && tokens[..count] == old(tokens[..idx]) + [h]
    {
      ghost var before, q := tokens[..idx], pos;
      tokens[idx] := tokens[idx].(kind := kind);
      h := tokens[idx];
      assert tokens[..idx] == before;
      pos := pos + 1;
      Ws();
      lead := input[q + 1..pos];
    }

    /** An object whose bracket is at the cursor: everything of it but the rest of token `idx`. */
    method ObjectValue(idx: nat, depth: nat, ghost p0: nat, ghost k: Stack) returns (ok: bool, ghost t: Tree, ghost h: Token, ghost r: seq<Token>)
      requires tokens.Length == MAX_TOKENS && count == idx + 1 <= MAX_TOKENS && Ready(input, p0, idx, k) && depth == Depth(k)
      requires SkipSpace(input, p0) == pos < |input| && input[pos] == '{' && depth <= MAX_DEPTH && tokens[idx].start == pos
      modifies this`pos, this`count, tokens
      ensures count <= MAX_TOKENS
      ensures var x, gap := Entry(p0, idx, k), input[p0..old(pos)];
              if !ok then Reaches(input, x, Failed)
              else
                && Reaches(input, x, Got(gap, t, pos, MAX_TOKENS - count, k)) && old(pos) < pos <= |input|
                && Begun(h, t, old(pos)) && tokens[..count] == old(tokens[..idx]) + [h] + r && r == Rest(t, old(pos), idx)
      decreases |input| - pos, 1
    {
      ghost var x, gap := Entry(p0, idx, k), input[p0..pos];
      ContainerOpens(input, p0, idx, k);
      ghost var lead;
      h, lead := Enter(idx, Object);
      t, r := Obj(lead, NoMembers), [];
      if pos < |input| && input[pos] == '}' {
        pos := pos + 1;
        return true, t, h, r;
      }
      ghost var done;
      ok, done, r := ObjectEntries(idx, depth, gap, lead, k, x);
      t := Obj(lead, done);
    }

    /** The entries of an object, one after the other, to its closing bracket. */
    method ObjectEntries(idx: nat, depth: nat, ghost gap: string, ghost lead: string, ghost k: Stack, ghost x: State)
      returns (ok: bool, ghost done: Members, ghost acc: seq<Token>)
      requires tokens.Length == MAX_TOKENS && depth == Depth(k) && count == idx + 1 <= MAX_TOKENS && pos <= |input|
      requires Reaches(input, x, Entry(pos, count, On(k, InObject(gap, lead, NoMembers)))) && Sure(input, x)
      requires StartsAt(input, k, gap, '{', lead, pos)
      modifies this`pos, this`count, tokens
      ensures count <= MAX_TOKENS
      ensures if !ok then Reaches(input, x, Failed)
              else
                && Reaches(input, x, Got(gap, Obj(lead, done), pos, MAX_TOKENS - count, k)) && old(pos) < pos <= |input|
                && tokens[..count] == old(tokens[..count]) + acc && acc == MemberTokens(done, old(pos), idx + 1)
      decreases |input| - pos, 8
    {
      ghost var start, before := pos, tokens[..count];
      acc := [];
      done, ok := NoMembers, true;
      var sep := ',';
      while sep == ','
        invariant tokens.Length == MAX_TOKENS && count <= MAX_TOKENS && start <= pos <= |input|
        invariant Reaches(input, x, AfterEntry(sep, '}', Got(gap, Obj(lead, done), pos, MAX_TOKENS - count, k),
                                               Entry(pos, count, On(k, InObject(gap, lead, done)))))
        invariant pos == start + WidthMembers(done) + (if done.NoMembers? then 0 else 1)
        invariant done.NoMembers? ==> sep == ','
        invariant tokens[..count] == before + acc && acc == MemberTokens(done, start, idx + 1)
        decreases |input| - pos
      {
        ReadyNext(input, x, pos, count, On(k, InObject(gap, lead, done)));
        ok, sep, done, acc := ObjectEntry(idx, depth, gap, lead, done, k, x, start, before, acc);
        if !ok {
          return;
        }
      }
      ok := sep == '}';
    }

    /** The value of an entry of an array, up to and past the separator after it. */
    method ItemValue(depth: nat, ghost k: Stack, ghost x: State, ghost start: nat)
      returns (ok: bool, sep: char, ghost m: Items, ghost r: seq<Token>)
      requires tokens.Length == MAX_TOKENS && depth == Depth(k) && Ready(input, pos, count, k) && k.On? && k.frame.InArray?
      requires Reaches(input, x, Entry(pos, count, k))
      requires pos == start + WidthItems(k.frame.items) + (if k.frame.items.NoItems? then 0 else 1)
      modifies this`pos, this`count, tokens
      ensures count <= MAX_TOKENS
      ensures if !ok then Reaches(input, x, Failed)
              else
                && m.Item? && m.init == k.frame.items && old(pos) < pos <= |input| && pos == start + WidthItems(m) + 1
                && Reaches(input, x, AfterEntry(sep, ']', Got(k.frame.gap, Arr(k.frame.lead, m), pos, MAX_TOKENS - count, k.below),
                                                Entry(pos, count, On(k.below, InArray(k.frame.gap, k.frame.lead, m)))))
                && tokens[..count] == old(tokens[..count]) + r && r == Tokens(m.val, ItemAt(m, start), old(count))
      decreases |input| - pos, 4
    {
      ghost var x1 := Entry(pos, count, k);
      m, sep, ok, r := NoItems, ' ', false, [];
      var i;
      ghost var itemGap, val;
      i, itemGap, val, r := Value(depth, k);
      if i < 0 {
        ReachesOn(input, x, x1, Failed);
        return;
      }
      ItemWidthDone(input, k, start, x1.pos, i, itemGap, val, pos, MAX_TOKENS - count);
      ReachesOn(input, x, x1, Got(itemGap, val, pos, MAX_TOKENS - count, k));
      ItemEnds(input, x, itemGap, val, pos, MAX_TOKENS - count, k);
      ghost var p1 := pos;
      Ws();
      m := Item(k.frame.items, itemGap, val, input[p1..pos]);
      if pos == |input| {
        return;
      }
      sep := input[pos];
      pos := pos + 1;
      ok := true;
    }

    /** One entry of an array, up to and past the separator after it. */
    method ArrayEntry(idx: nat, depth: nat, ghost gap: string, ghost lead: string, ghost done: Items, ghost k: Stack,
                     ghost x: State, ghost start: nat, ghost before: seq<Token>, ghost acc: seq<Token>)
      returns (ok: bool, sep: char, ghost m: Items, ghost all: seq<Token>)
      requires tokens.Length == MAX_TOKENS && depth == Depth(k) && Ready(input, pos, count, On(k, InArray(gap, lead, done)))
      requires Reaches(input, x, Entry(pos, count, On(k, InArray(gap, lead, done))))
      requires pos == start + WidthItems(done) + (if done.NoItems? then 0 else 1)
      requires |before| == idx + 1 && tokens[..count] == before + acc && acc == ItemTokens(done, start, idx + 1)
      modifies this`pos, this`count, tokens
      ensures count <= MAX_TOKENS
      ensures if !ok then Reaches(input, x, Failed)
              else
                && m.Item? && old(pos) < pos <= |input| && pos == start + WidthItems(m) + 1
                && Reaches(input, x, AfterEntry(sep, ']', Got(gap, Arr(lead, m), pos, MAX_TOKENS - count, k),
                                                Entry(pos, count, On(k, InArray(gap, lead, m)))))
                && tokens[..count] == before + all && all == ItemTokens(m, start, idx + 1)
      decreases |input| - pos, 6
    {
      ghost var r;
      all := acc;
      ok, sep, m, r := ItemValue(depth + 1, On(k, InArray(gap, lead, done)), x, start);
      if ok {
        all := acc + r;
        ItemTokensAre(m, start, idx + 1, acc, r);
        Assoc(before, acc, [], r);
      }
    }

    /** An array whose bracket is at the cursor: everything of it but the rest of token `idx`. */
    method ArrayValue(idx: nat, depth: nat, ghost p0: nat, ghost k: Stack) returns (ok: bool, ghost t: Tree, ghost h: Token, ghost r: seq<Token>)
      requires tokens.Length == MAX_TOKENS && count == idx + 1 <= MAX_TOKENS && Ready(input, p0, idx, k) && depth == Depth(k)
      requires SkipSpace(input, p0) == pos < |input| && input[pos] == '[' && depth <= MAX_DEPTH && tokens[idx].start == pos
      modifies this`pos, this`count, tokens
      ensures count <= MAX_TOKENS
      ensures var x, gap := Entry(p0, idx, k), input[p0..old(pos)];
              if !ok then Reaches(input, x, Failed)
              else
                && Reaches(input, x, Got(gap, t, pos, MAX_TOKENS - count, k)) && old(pos) < pos <= |input|
                && Begun(h, t, old(pos)) && tokens[..count] == old(tokens[..idx]) + [h] + r && r == Rest(t, old(pos), idx)
      decreases |input| - pos, 1
    {
      ghost var x, gap := Entry(p0, idx, k), input[p0..pos];
      ContainerOpens(input, p0, idx, k);
      ghost var lead;
      h, lead := Enter(idx, Array);
      t, r := Arr(lead, NoItems), [];
      if pos < |input| && input[pos] == ']' {
        pos := pos + 1;
        return true, t, h, r;
      }
      ghost var done;
      ok, done, r := ArrayEntries(idx, depth, gap, lead, k, x);
      t := Arr(lead, done);
    }

    /** The entries of an array, one after the other, to its closing bracket. */
    method ArrayEntries(idx: nat, depth: nat, ghost gap: string, ghost lead: string, ghost k: Stack, ghost x: State)
      returns (ok: bool, ghost done: Items, ghost acc: seq<Token>)
      requires tokens.Length == MAX_TOKENS && depth == Depth(k) && count == idx + 1 <= MAX_TOKENS && pos <= |input|
      requires Reaches(input, x, Entry(pos, count, On(k, InArray(gap, lead, NoItems)))) && Sure(input, x)
      requires StartsAt(input, k, gap, '[', lead, pos)
      modifies this`pos, this`count, tokens
      ensures count <= MAX_TOKENS
      ensures if !ok then Reaches(input, x, Failed)
              else
                && Reaches(input, x, Got(gap, Arr(lead, done), pos, MAX_TOKENS - count, k)) && old(pos) < pos <= |input|
                && tokens[..count] == old(tokens[..count]) + acc && acc == ItemTokens(done, old(pos), idx + 1)
      decreases |input| - pos, 7
    {
      ghost var start, before := pos, tokens[..count];
      acc := [];
      done, ok := NoItems, true;
      var sep := ',';
      while sep == ','
        invariant tokens.Length == MAX_TOKENS && count <= MAX_TOKENS && start <= pos <= |input|
        invariant Reaches(input, x, AfterEntry(sep, ']', Got(gap, Arr(lead, done), pos, MAX_TOKENS - count, k),
                                               Entry(pos, count, On(k, InArray(gap, lead, done)))))
        invariant pos == start + WidthItems(done) + (if done.NoItems? then 0 else 1)
        invariant done.NoItems? ==> sep == ','
        invariant tokens[..count] == before + acc && acc == ItemTokens(done, start, idx + 1)
        decreases |input| - pos
      {
        ReadyNext(input, x, pos, count, On(k, InArray(gap, lead, done)));
        ok, sep, done, acc := ArrayEntry(idx, depth, gap, lead, done, k, x, start, before, acc);
        if !ok {
          return;
        }
      }
      ok := sep == ']';
    }

    // ----- The interface -----

    /** Parse a text. It succeeds exactly for the texts of the language within the limits, and the
        tokens are then those of the one tree that the text renders. */
    method Parse(s: string) returns (ok: bool)
      requires Valid()
      modifies this, tokens
      ensures Valid()
      ensures ok <==> |s| <= MAX_TEXT && exists l, t, r :: Renders(s, l, t, r)
      ensures ok ==> count > 0 && input == s
      ensures !ok ==> count == 0
    {
      input, pos, count := s, 0, 0;
      if s == "" || |s| > MAX_TEXT {
        return false;
      }
      var i;
      ghost var gap, t, r;
      i, gap, t, r := Value(0, Bottom);
      if i != 0 {
        NeverRenders(s);
        count := 0;
        return false;
      }
      ReadOk(s, 0, 0, Bottom, gap, t, pos, MAX_TOKENS - count);
      ParseEnds(s, gap, t, pos, MAX_TOKENS - count);
      ghost var p1 := pos;
      Ws();
      if pos != |s| {
        NeverRenders(s);
        count := 0;
        return false;
      }
      lead, tree, trail := gap, t, s[p1..];
      assert s[p1..pos] == s[p1..];
      ParsedIffRendered(s, lead, tree, trail);
      assert tokens[..count] == r;
      ok := true;
    }

    /** The node of token `i`. */
    ghost function NodeOf(i: nat): Node
      requires Valid() && i < count
      reads this, tokens
    {
      NodeAt(Node(tree, |lead|, 0), 0, i)
    }

    /** What is known of every token: its node, in the text and in the array. */
    lemma TokenIs(i: nat)
      requires Valid() && i < count
      ensures tokens[i] == Head(NodeOf(i).t, NodeOf(i).start, i)
      ensures Holds(tokens[..count], NodeOf(i), i)
      ensures Scan(input, Some(NodeOf(i).start), NodeOf(i).t, NodeOf(i).depth).Some?
      ensures i + Count(NodeOf(i).t) <= count
    {
      var root := Node(tree, |lead|, 0);
      var n := EveryIndex(tokens[..count], root, 0, i);
      EverySpelled(input, root, 0, i);
      HoldsParts(tokens[..count], n, i);
    }

    /** What is known of an object or an array: where its list is. */
    lemma ListAt(o: nat) returns (n: Node)
      requires Valid() && o < count
      ensures n == NodeOf(o) && tokens[o].kind == Kind(n.t) && tokens[o].end == o + Count(n.t)
      ensures n.t.Obj? ==>
                && Listed(tokens[..count], input, n.t.members, n.start + 1 + |n.t.lead|, n.depth + 1, o + 1)
                && UniqueKeys(n.t.members)
      ensures n.t.Arr? ==> HoldsItems(tokens[..count], n.t.items, n.start + 1 + |n.t.lead|, o + 1)
    {
      n := NodeOf(o);
      TokenIs(o);
      NodeList(tokens[..count], input, n, o);
    }

    predicate Is(i: int, kind: Type)
      requires tokens.Length == MAX_TOKENS && count <= MAX_TOKENS
      reads this, tokens
    {
      0 <= i < count && tokens[i].kind == kind
    }

    /** Walk the entries of an object by the `end` of their values. */
    method FindMember(o: nat, key: string, ghost ms: Members, ghost start: nat, ghost depth: nat) returns (r: int)
      requires tokens.Length == MAX_TOKENS && o < count <= MAX_TOKENS && tokens[o].end == o + 1 + CountMembers(ms)
      requires Listed(tokens[..count], input, ms, start, depth, o + 1)
      ensures r == MemberIndex(ms, key, o + 1)
    {
      var i := o + 1;
      ghost var k := 0;
      TakeGrows(ms, 0);
      while i < tokens[o].end
        invariant k <= Len(ms) && i == o + 1 + CountMembers(Take(ms, k)) && i <= tokens[o].end
        invariant k < Len(ms) <==> i < tokens[o].end
        invariant !HasKey(Take(ms, k), key) && (k == Len(ms) ==> Take(ms, k) == ms)
        decreases Len(ms) - k
      {
        WalkListed(tokens[..count], input, ms, start, depth, o + 1, k);
        if input[tokens[i].start..tokens[i].start + tokens[i].len] == key {
          IndexOfTake(ms, key, k, o + 1);
          return i + 1;
        }
        i := tokens[i + 1].end;
        k := k + 1;
        TakeGrows(ms, k);
      }
      NoMember(ms, key, o + 1);
      r := -1;
    }

    method GetMember(o: nat, key: string) returns (r: int)
      requires Valid() && o < count && NodeOf(o).t.Obj?
      ensures var v := Lookup(NodeOf(o).t.members, key);
              if v.None? then r == -1 else 0 <= r < count && NodeOf(r).t == v.value
    {
      ghost var n := ListAt(o);
      r := FindMember(o, key, n.t.members, n.start + 1 + |n.t.lead|, n.depth + 1);
      MemberOfNode(Node(tree, |lead|, 0), o, key);
    }

    /** The value of a member of an object: the token of the value that the object has for the key. */
    method Get(o: int, key: string) returns (r: int)
      requires Valid()
      ensures r == -1 || 0 <= r < count
      ensures !(0 <= o < count && NodeOf(o).t.Obj?) ==> r == -1
      ensures 0 <= o < count && NodeOf(o).t.Obj? ==>
                var v := Lookup(NodeOf(o).t.members, key);
                if v.None? then r == -1 else r >= 0 && NodeOf(r).t == v.value
    {
      if 0 <= o < count {
        ghost var n := ListAt(o);
      }
      if !Is(o, Object) {
        return -1;
      }
      r := GetMember(o, key);
    }

    method FindItem(a: nat, n: nat, ghost xs: Items, ghost start: nat) returns (r: int)
      requires tokens.Length == MAX_TOKENS && a < count <= MAX_TOKENS && tokens[a].end == a + 1 + CountItems(xs)
      requires HoldsItems(tokens[..count], xs, start, a + 1)
      ensures r == ItemIndex(xs, n, a + 1)
    {
      var i, left := a + 1, n;
      ghost var k := 0;
      TakeItemsGrows(xs, 0);
      while i < tokens[a].end
        invariant k + left == n && left >= 0 && k <= ItemLen(xs) && i == a + 1 + CountItems(TakeItems(xs, k))
        invariant k < ItemLen(xs) <==> i < tokens[a].end
        decreases ItemLen(xs) - k
      {
        WalkItems(tokens[..count], xs, start, a + 1, k);
        if left == 0 {
          assert ItemIndex(xs, n, a + 1) == a + 1 + CountItems(TakeItems(xs, n));
          return i;
        }
        left := left - 1;
        i := tokens[i].end;
        k := k + 1;
        TakeItemsGrows(xs, k);
      }
      assert k == ItemLen(xs) <= n;
      r := -1;
    }

    /** An element of an array, by number. */
    method Element(a: int, n: nat) returns (r: int)
      requires Valid()
      ensures r == -1 || 0 <= r < count
      ensures !(0 <= a < count && NodeOf(a).t.Arr?) ==> r == -1
      ensures 0 <= a < count && NodeOf(a).t.Arr? ==>
                var v := JsonNodes.Element(NodeOf(a).t.items, n);
                if v.None? then r == -1 else r >= 0 && NodeOf(r).t == v.value
    {
      ghost var x := Node(Lit(Null), 0, 0);
      if 0 <= a < count {
        x := ListAt(a);
      }
      if !Is(a, Array) {
        return -1;
      }
      r := FindItem(a, n, x.t.items, x.start + 1 + |x.t.lead|);
      ItemOfNode(Node(tree, |lead|, 0), a, n);
    }

    /** Whether a token is a string with exactly this text between its quotes. */
    method Equal(i: int, text: string) returns (same: bool)
      requires Valid()
      ensures same <==> 0 <= i < count && NodeOf(i).t == Str(text)
    {
      if 0 <= i < count {
        TokenIs(i);
      }
      if !Is(i, String) {
        return false;
      }
      SliceIs(input, NodeOf(i).start + 1, NodeOf(i).t.raw);
      same := input[tokens[i].start..tokens[i].start + tokens[i].len] == text;
    }

    /** The value of a string token, as the C string it is copied out as. */
    method Text(i: int, cap: nat) returns (ok: bool, dst: string)
      requires Valid()
      ensures ok <==> 0 <= i < count && NodeOf(i).t.Str? && Body(NodeOf(i).t.raw) && FitsBuffer(Bytes(NodeOf(i).t.raw), cap)
      ensures ok ==> Some(dst) == Bytes(NodeOf(i).t.raw)
    {
      if 0 <= i < count {
        TokenIs(i);
      }
      if !Is(i, String) || cap == 0 {
        return false, "";
      }
      SliceIs(input, NodeOf(i).start + 1, NodeOf(i).t.raw);
      ok, dst := Decode(input[tokens[i].start..tokens[i].start + tokens[i].len], cap);
    }
  }
}
