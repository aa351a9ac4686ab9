/** The recursive descent of components/controller/json.cpp:38-105 one step at a time, with its call
    stack written out: a run from `Expect` ends in `Parsed` exactly for the texts of the language. */
module JsonMachine {
  import opened JsonSyntax
  import opened JsonLexer
  import opened JsonScan
  import opened JsonLexical

  /** An open container: what stood before it, what follows its bracket, and its entries so far. */
  datatype Frame =
    | InObject(gap: string, lead: string, members: Members)
    | InMember(gap: string, lead: string, members: Members, keyGap: string, key: string, beforeColon: string)
    | InArray(gap: string, lead: string, items: Items)

  datatype Stack = Bottom | On(below: Stack, frame: Frame)

  function Depth(k: Stack): nat { if k.Bottom? then 0 else Depth(k.below) + 1 }

  /** Before a value, or after one that had `gap` in front of it. `room` is the tokens left. */
  datatype State =
    | Expect(pos: nat, room: nat, stack: Stack)
    | Got(gap: string, val: Tree, pos: nat, room: nat, stack: Stack)
    | Parsed(lead: string, tree: Tree, trail: string)
    | Failed
  {
    predicate Within(s: string) { Expect? || Got? ==> pos <= |s| }
  }

  /** `value` up to its first child, or its end. */
  function StepExpect(s: string, pos: nat, room: nat, stack: Stack): (r: State)
    requires pos <= |s|
    ensures r.Within(s)
  {
    var q := SkipSpace(s, pos);
    var gap := s[pos..q];
    if Depth(stack) > MAX_DEPTH || room == 0 || q == |s| then Failed
    else if s[q] == '{' then
      var p := SkipSpace(s, q + 1);
      var lead := s[q + 1..p];
      if p < |s| && s[p] == '}' then Got(gap, Obj(lead, NoMembers), p + 1, room - 1, stack)
      else Expect(p, room - 1, On(stack, InObject(gap, lead, NoMembers)))
    else if s[q] == '[' then
      var p := SkipSpace(s, q + 1);
      var lead := s[q + 1..p];
      if p < |s| && s[p] == ']' then Got(gap, Arr(lead, NoItems), p + 1, room - 1, stack)
      else Expect(p, room - 1, On(stack, InArray(gap, lead, NoItems)))
    else
      match ReadScalar(s, q)
      case Fail => Failed
      case Done(t, e) => Got(gap, t, e, room - 1, stack)
  }

  predicate GoodKey(t: Tree, ms: Members) { t.Str? && '\\' !in t.raw && !HasKey(ms, t.raw) }

  /** What the caller of `value` does with it: the innermost container, or `parse`. */
  function StepGot(s: string, gap: string, t: Tree, pos: nat, room: nat, stack: Stack): (r: State)
    requires pos <= |s|
    ensures r.Within(s)
  {
    var z := SkipSpace(s, pos);
    var after := s[pos..z];
    match stack
    case Bottom => if z == |s| then Parsed(gap, t, after) else Failed
    case On(below, InObject(g, lead, ms)) =>
      if GoodKey(t, ms) && z < |s| && s[z] == ':' then Expect(z + 1, room, On(below, InMember(g, lead, ms, gap, t.raw, after)))
      else Failed
    case On(below, InMember(g, lead, init, keyGap, key, beforeColon)) =>
      var ms := Member(init, keyGap, key, beforeColon, gap, t, after);
      if z == |s| then Failed
      else if s[z] == '}' then Got(g, Obj(lead, ms), z + 1, room, below)
      else if s[z] == ',' then Expect(z + 1, room, On(below, InObject(g, lead, ms)))
      else Failed
    case On(below, InArray(g, lead, init)) =>
      var xs := Item(init, gap, t, after);
      if z == |s| then Failed
      else if s[z] == ']' then Got(g, Arr(lead, xs), z + 1, room, below)
      else if s[z] == ',' then Expect(z + 1, room, On(below, InArray(g, lead, xs)))
      else Failed
  }

  predicate Final(x: State) { x.Parsed? || x.Failed? }

  function Step(s: string, x: State): State
    requires x.Within(s) && !Final(x)
  {
    if x.Expect? then StepExpect(s, x.pos, x.room, x.stack) else StepGot(s, x.gap, x.val, x.pos, x.room, x.stack)
  }

  // ----- Runs -----

  /** Kept as a predicate of its own so that a run is looked into only where a proof says so. */
  predicate Moves(s: string, xs: seq<State>, i: int) {
    0 <= i < |xs| - 1 && xs[i].Within(s) && !Final(xs[i]) && xs[i + 1] == Step(s, xs[i])
  }

  ghost predicate IsRun(s: string, xs: seq<State>) {
    |xs| > 0 && xs[0].Within(s) && forall i | 0 <= i < |xs| - 1 :: Moves(s, xs, i)
  }

  ghost predicate Runs(s: string, x: State, y: State, xs: seq<State>) {
    IsRun(s, xs) && xs[0] == x && xs[|xs| - 1] == y
  }

  /** The machine gets from `x` to `y`. */
  ghost predicate Reaches(s: string, x: State, y: State) { exists xs :: Runs(s, x, y, xs) }

  lemma StepReaches(s: string, x: State)
    requires x.Within(s) && !Final(x)
    ensures Reaches(s, x, Step(s, x))
  {
    var xs := [x, Step(s, x)];
    assert Moves(s, xs, 0);
    assert Runs(s, x, Step(s, x), xs);
  }

  lemma ReachesOn(s: string, x: State, y: State, z: State)
    requires Reaches(s, x, y) && Reaches(s, y, z)
    ensures Reaches(s, x, z)
  {
    var a :| Runs(s, x, y, a);
    var b :| Runs(s, y, z, b);
    var c := a + b[1..];
    forall i | 0 <= i < |c| - 1
      ensures Moves(s, c, i)
    {
      if i < |a| - 1 {
        assert Moves(s, a, i);
      } else {
        assert Moves(s, b, i - |a| + 1);
      }
    }
    assert Runs(s, x, z, c);
  }

  /** A machine has one run: its two ends from the same state are the same end. */
  lemma {:induction false} OneEnd(s: string, a: seq<State>, b: seq<State>, n: nat)
    requires IsRun(s, a) && IsRun(s, b) && a[0] == b[0] && n < |a| && n < |b|
    ensures a[n] == b[n]
  {
    if n > 0 {
      OneEnd(s, a, b, n - 1);
      assert Moves(s, a, n - 1) && Moves(s, b, n - 1);
    }
  }

  lemma EndsAgree(s: string, x: State, y: State, z: State)
    requires Reaches(s, x, y) && Reaches(s, x, z) && Final(y) && Final(z)
    ensures y == z
  {
    var a :| Runs(s, x, y, a);
    var b :| Runs(s, x, z, b);
    var n := (if |a| < |b| then |a| else |b|) - 1;
    OneEnd(s, a, b, n);
    assert |a| < |b| ==> Moves(s, b, n);
    assert |b| < |a| ==> Moves(s, a, n);
  }
}
