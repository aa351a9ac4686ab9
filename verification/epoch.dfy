/** `ControlEpoch` of components/controller/include/control_epoch.hpp: a uint32 that skips zero. */
module Epochs {
  const WIDTH := 0x1_0000_0000
  const PERIOD := WIDTH - 1

  predicate IsEpoch(v: nat) { 1 <= v < WIDTH }

  /** `++value_`, once more when it wraps to zero. */
  function Next(v: nat): nat {
    var n := (v + 1) % WIDTH;
    if n == 0 then (n + 1) % WIDTH else n
  }

  function After(v: nat, n: nat): nat {
    if n == 0 then v else Next(After(v, n - 1))
  }

  lemma {:induction false} AfterIs(v: nat, n: nat)
    requires IsEpoch(v)
    ensures After(v, n) == (v - 1 + n) % 0xFFFF_FFFF + 1
  {
    if n > 0 {
      AfterIs(v, n - 1);
      NextResidue(v - 1 + n - 1);
    }
  }

  lemma NextResidue(k: nat)
    ensures Next(k % 0xFFFF_FFFF + 1) == (k + 1) % 0xFFFF_FFFF + 1
  {
  }

  lemma SameResidue(a: nat, d: nat)
    ensures (a + d) % 0xFFFF_FFFF == a % 0xFFFF_FFFF <==> d % 0xFFFF_FFFF == 0
  {
  }

  /** Generations repeat with period 2^32-1 exactly: a stale command can match again only after a
      positive multiple of that many changes. */
  lemma EpochsRepeat(v: nat, m: nat, n: nat)
    requires IsEpoch(v) && m <= n
    ensures After(v, m) == After(v, n) <==> (n - m) % PERIOD == 0
    ensures IsEpoch(After(v, n))
  {
    AfterIs(v, m);
    AfterIs(v, n);
    SameResidue(v - 1 + m, n - m);
  }

  /** How many changes after `seed` the generation `v` was issued, within one period. */
  function Ticket(seed: nat, v: nat): nat { (v - seed) % PERIOD }

  /** Within one period each change issues a generation that was not issued before. */
  lemma NextTicket(seed: nat, v: nat)
    requires IsEpoch(seed) && IsEpoch(v) && Ticket(seed, v) + 1 < PERIOD
    ensures IsEpoch(Next(v)) && Ticket(seed, Next(v)) == Ticket(seed, v) + 1
    ensures forall u | IsEpoch(u) && Ticket(seed, u) <= Ticket(seed, v) :: Next(v) != u
  {
  }

  class ControlEpoch {
    var value: nat

    ghost predicate Valid()
      reads this
    {
      IsEpoch(value)
    }

    constructor (initial: nat)
      requires initial < WIDTH
      ensures Valid() && value == if initial == 0 then 1 else initial
    {
      value := if initial == 0 then 1 else initial;
    }

    predicate Matches(expected: nat)
      reads this
    {
      expected != 0 && expected == value
    }

    method Cancel() returns (acquired: nat)
      requires Valid()
      modifies this
      ensures Valid() && acquired == value == Next(old(value))
    {
      value := (value + 1) % WIDTH;
      if value == 0 {
        value := value + 1;
      }
      acquired := value;
    }

    method Begin(expected: nat) returns (ok: bool, acquired: nat)
      requires Valid()
      modifies this
      ensures Valid() && ok == old(Matches(expected))
      ensures if ok then acquired == value == Next(old(value)) else value == old(value)
    {
      acquired := 0;
      ok := Matches(expected);
      if ok {
        acquired := Cancel();
      }
    }
  }
}
