/** `crc32` of components/controller/protocol.cpp:237-241 and the records it seals. The proofs are
    about any bit step that is linear, one-to-one and shifts a register whose low bit is clear. */
module Crcs {
  const POLYNOMIAL: bv32 := 0xEDB8_8320

  /** One bit of the register. */
  function Bit(c: bv32): bv32 { (c >> 1) ^ (if c & 1 == 1 then POLYNOMIAL else 0) }

  /** `f` over and over. */
  function Power<T>(f: T -> T, c: T, n: nat): T {
    if n == 0 then c else f(Power(f, c, n - 1))
  }

  function Xor(a: bv32, b: bv32): bv32 { a ^ b }

  function Feed(f: bv32 -> bv32, c: bv32, b: bv8): bv32 { Power(f, Xor(c, b as bv32), 8) }

  function FeedAll(f: bv32 -> bv32, c: bv32, data: seq<bv8>): bv32 {
    if data == [] then c else Feed(f, FeedAll(f, c, data[..|data| - 1]), data[|data| - 1])
  }

  function Crc(data: seq<bv8>): bv32 { !FeedAll(Bit, 0xFFFF_FFFF, data) }

  // ----- The program -----

  /** The source's form of `Bit`, without a branch. */
  function Masked(c: bv32): bv32 { (c >> 1) ^ (POLYNOMIAL & (0 - (c & 1))) }

  lemma MaskOf(c: bv32)
    ensures POLYNOMIAL & (0 - (c & 1)) == if c & 1 == 1 then POLYNOMIAL else 0
  {
    LowBit(c);
    var low := c & 1;
    if low == 1 {
      assert 0 - low == 0xFFFF_FFFF;
    } else {
      assert 0 - low == 0;
    }
  }

  lemma LowBit(x: bv32)
    ensures x & 1 == 0 || x & 1 == 1
  {
  }

  lemma BitAsMask(c: bv32)
    ensures Masked(c) == Bit(c)
  {
    MaskOf(c);
  }

  method FeedByte(c: bv32, b: bv8) returns (r: bv32)
    ensures r == Feed(Bit, c, b)
  {
    r := c ^ (b as bv32);
    ghost var start := r;
    for k := 0 to 8
      invariant r == Power(Bit, start, k)
    {
      BitAsMask(r);
      r := Masked(r);
    }
  }

  method Crc32(data: seq<bv8>) returns (crc: bv32)
    ensures crc == Crc(data)
  {
    crc := 0xFFFF_FFFF;
    for i := 0 to |data|
      invariant crc == FeedAll(Bit, 0xFFFF_FFFF, data[..i])
    {
      assert data[..i + 1][..i] == data[..i];
      crc := FeedByte(crc, data[i]);
    }
    assert data[..|data|] == data;
    crc := !crc;
  }

  // ----- The bit step -----

  ghost predicate Linear(f: bv32 -> bv32) {
    forall a, b {:trigger f(Xor(a, b))} :: f(Xor(a, b)) == Xor(f(a), f(b))
  }

  ghost predicate OneToOne(f: bv32 -> bv32) { forall a, b :: a != b ==> f(a) != f(b) }

  ghost predicate Shifting(f: bv32 -> bv32) { forall z :: z & 1 == 0 ==> f(z) == z >> 1 }

  ghost predicate IsStep(f: bv32 -> bv32) { Linear(f) && OneToOne(f) && Shifting(f) }

  lemma XorShift(x: bv32, y: bv32)
    ensures (x ^ y) >> 1 == (x >> 1) ^ (y >> 1)
  {
  }

  lemma XorLow(x: bv32, y: bv32)
    ensures (x ^ y) & 1 == (x & 1) ^ (y & 1)
    ensures x & 1 == 0 || x & 1 == 1
  {
  }

  lemma XorMoves(a: bv32, b: bv32, p: bv32)
    ensures (a ^ p) ^ (b ^ p) == a ^ b && (a ^ p) ^ b == (a ^ b) ^ p && a ^ (b ^ p) == (a ^ b) ^ p
  {
  }

  lemma BitLinear(x: bv32, y: bv32)
    ensures Bit(x ^ y) == Bit(x) ^ Bit(y)
  {
    XorShift(x, y);
    XorLow(x, y);
    XorLow(y, x);
    XorMoves(x >> 1, y >> 1, POLYNOMIAL);
    XorMoves(x >> 1, y >> 1, 0);
  }

  /** No two states of the register become one. */
  lemma BitInjective(x: bv32, y: bv32)
    requires x != y
    ensures Bit(x) != Bit(y)
  {
    LowBit(x);
    LowBit(y);
    if x & 1 == y & 1 {
      HalfAndLow(x, y);
      XorCancels(x >> 1, y >> 1, POLYNOMIAL);
      XorCancels(x >> 1, y >> 1, 0);
    } else {
      TopOfHalf(x);
      TopOfHalf(y);
    }
  }

  /** The polynomial sets the top bit, which a halved register has clear. */
  lemma TopOfHalf(x: bv32)
    ensures ((x >> 1) ^ 0) & 0x8000_0000 == 0 && ((x >> 1) ^ POLYNOMIAL) & 0x8000_0000 != 0
  {
  }

  lemma XorCancels(a: bv32, b: bv32, p: bv32)
    ensures a ^ p == b ^ p <==> a == b
  {
  }

  lemma HalfAndLow(x: bv32, y: bv32)
    requires x != y && x & 1 == y & 1
    ensures x >> 1 != y >> 1
  {
  }

  lemma BitShifts(z: bv32)
    requires z & 1 == 0
    ensures Bit(z) == z >> 1
  {
    assert (z >> 1) ^ 0 == z >> 1;
  }

  lemma BitIsStep()
    ensures IsStep(Bit)
  {
    forall a, b {:trigger Bit(Xor(a, b))}
      ensures Bit(Xor(a, b)) == Xor(Bit(a), Bit(b))
    {
      BitLinear(a, b);
    }
    forall a, b | a != b
      ensures Bit(a) != Bit(b)
    {
      BitInjective(a, b);
    }
    forall z: bv32 | z & 1 == 0
      ensures Bit(z) == z >> 1
    {
      BitShifts(z);
    }
  }

  // ----- Many steps -----

  lemma {:induction false} PowerLinear(f: bv32 -> bv32, x: bv32, y: bv32, n: nat)
    requires Linear(f)
    ensures Power(f, Xor(x, y), n) == Xor(Power(f, x, n), Power(f, y, n))
  {
    if n > 0 {
      PowerLinear(f, x, y, n - 1);
      var a, b := Power(f, x, n - 1), Power(f, y, n - 1);
      assert f(Xor(a, b)) == Xor(f(a), f(b));
    }
  }

  lemma {:induction false} PowerInjective(f: bv32 -> bv32, x: bv32, y: bv32, n: nat)
    requires OneToOne(f) && x != y
    ensures Power(f, x, n) != Power(f, y, n)
  {
    if n > 0 {
      PowerInjective(f, x, y, n - 1);
    }
  }

  lemma {:induction false} PowerAdd<T>(f: T -> T, x: T, m: nat, n: nat)
    ensures Power(f, x, m + n) == Power(f, Power(f, x, m), n)
  {
    if n > 0 {
      PowerAdd(f, x, m, n - 1);
    }
  }

  lemma {:induction false} PowerChain<T>(f: T -> T, ys: seq<T>, n: nat)
    requires n < |ys| && forall k | 0 < k < |ys| :: ys[k] == f(ys[k - 1])
    ensures Power(f, ys[0], n) == ys[n]
  {
    if n > 0 {
      PowerChain(f, ys, n - 1);
    }
  }

  lemma Halvings(y: bv32)
    requires y & 0xFF == 0
    ensures y & 1 == 0 && (y >> 1) & 1 == 0 && (y >> 2) & 1 == 0 && (y >> 3) & 1 == 0
    ensures (y >> 4) & 1 == 0 && (y >> 5) & 1 == 0 && (y >> 6) & 1 == 0 && (y >> 7) & 1 == 0
    ensures (y >> 1) >> 1 == y >> 2 && (y >> 2) >> 1 == y >> 3 && (y >> 3) >> 1 == y >> 4 && (y >> 4) >> 1 == y >> 5
    ensures (y >> 5) >> 1 == y >> 6 && (y >> 6) >> 1 == y >> 7 && (y >> 7) >> 1 == y >> 8
  {
  }

  /** Bits above a zero byte only move down. */
  lemma MovesDown(f: bv32 -> bv32, y: bv32)
    requires Shifting(f) && y & 0xFF == 0
    ensures Power(f, y, 8) == y >> 8
  {
    Halvings(y);
    var ys := [y, y >> 1, y >> 2, y >> 3, y >> 4, y >> 5, y >> 6, y >> 7, y >> 8];
    PowerChain(f, ys, 8);
  }

  lemma Above(f: bv32 -> bv32, w: bv32) returns (y: bv32)
    requires Shifting(f) && w < 0x100_0000
    ensures y == w << 8 && Power(f, y, 8) == w
  {
    y := w << 8;
    assert y & 0xFF == 0 && y >> 8 == w;
    MovesDown(f, y);
  }

  lemma Combine(f: bv32 -> bv32, s: bv32, p: bv32, low: bv32, y: bv32, w: bv32)
    requires Linear(f) && Power(f, y, 8) == w && Xor(s, p) == Xor(Xor(s, low), y)
    ensures Power(f, Xor(s, p), 8) == Xor(Power(f, Xor(s, low), 8), w)
  {
    PowerLinear(f, Xor(s, low), y, 8);
  }

  lemma Regroup(s: bv32, low: bv32, y: bv32)
    ensures Xor(s, low ^ y) == Xor(Xor(s, low), y)
  {
  }

  lemma FourTimes<T>(f: T -> T, x0: T, x1: T, x2: T, x3: T, x4: T)
    requires Power(f, x0, 8) == x1 && Power(f, x1, 8) == x2 && Power(f, x2, 8) == x3 && Power(f, x3, 8) == x4
    ensures Power(f, x0, 32) == x4
  {
    PowerAdd(f, x0, 8, 24);
    PowerAdd(f, x1, 8, 16);
    PowerAdd(f, x2, 8, 8);
  }

  // ----- Four bytes at once -----

  /** A byte below the bits of `w`. */
  predicate Below(p: bv32, low: bv8, w: bv32) { w < 0x100_0000 && p == (low as bv32) ^ (w << 8) }

  lemma BelowInjective(p: bv32, low: bv8, w: bv32, low': bv8, w': bv32)
    requires Below(p, low, w) && Below(p, low', w')
    ensures low == low' && w == w'
  {
  }

  lemma Pack(a: bv8, b: bv8, c: bv8, d: bv8) returns (p4: bv32, p3: bv32, p2: bv32)
    ensures Below(p4, a, p3) && Below(p3, b, p2) && Below(p2, c, d as bv32)
  {
    p2 := (c as bv32) ^ ((d as bv32) << 8);
    p3 := (b as bv32) ^ (p2 << 8);
    p4 := (a as bv32) ^ (p3 << 8);
  }

  /** Bytes that wait above the one being fed come down unchanged. */
  lemma FeedBelow(f: bv32 -> bv32, s: bv32, p: bv32, low: bv8, w: bv32, r: bv32)
    requires Linear(f) && Shifting(f) && Below(p, low, w) && r == Feed(f, s, low)
    ensures Power(f, Xor(s, p), 8) == Xor(r, w)
  {
    var y := Above(f, w);
    Regroup(s, low as bv32, y);
    Combine(f, s, p, low as bv32, y, w);
  }

  /** Feeding four bytes is 32 steps of the register with all of them in it. */
  lemma FourSteps(f: bv32 -> bv32, s: bv32, a: seq<bv8>, p4: bv32, p3: bv32, p2: bv32)
    requires Linear(f) && Shifting(f) && |a| == 4
    requires Below(p4, a[0], p3) && Below(p3, a[1], p2) && Below(p2, a[2], a[3] as bv32)
    ensures FeedAll(f, s, a) == Power(f, Xor(s, p4), 32)
  {
    var s1, s2, s3, s4 := FeedFour(f, s, a);
    FeedBelow(f, s, p4, a[0], p3, s1);
    FeedBelow(f, s1, p3, a[1], p2, s2);
    FeedBelow(f, s2, p2, a[2], a[3] as bv32, s3);
    FourTimes(f, Xor(s, p4), Xor(s1, p3), Xor(s2, p2), Xor(s3, a[3] as bv32), s4);
  }

  lemma LastByte(a: bv8, b: bv8)
    requires a as bv32 == b as bv32
    ensures a == b
  {
  }

  lemma XorDiffers(s: bv32, x: bv32, y: bv32)
    requires x != y
    ensures Xor(s, x) != Xor(s, y) && Xor(x, s) != Xor(y, s)
  {
  }

  lemma FeedFour(f: bv32 -> bv32, s: bv32, a: seq<bv8>) returns (s1: bv32, s2: bv32, s3: bv32, s4: bv32)
    requires |a| == 4
    ensures s1 == Feed(f, s, a[0]) && s2 == Feed(f, s1, a[1]) && s3 == Feed(f, s2, a[2]) && s4 == Feed(f, s3, a[3])
    ensures s4 == FeedAll(f, s, a)
  {
    assert a[..3][..2] == a[..2] && a[..2][..1] == a[..1] && a[..1][..0] == [] && FeedAll(f, s, []) == s;
    assert a[..1][0] == a[0] && a[..2][1] == a[1] && a[..3][2] == a[2];
    s1, s2, s3, s4 := FeedAll(f, s, a[..1]), FeedAll(f, s, a[..2]), FeedAll(f, s, a[..3]), FeedAll(f, s, a);
  }

  lemma PacksAgree(a: bv8, b: bv8, c: bv8, d: bv8, x: bv32, x3: bv32, x2: bv32,
                    a': bv8, b': bv8, c': bv8, d': bv8, y: bv32, y3: bv32, y2: bv32)
    requires Below(x, a, x3) && Below(x3, b, x2) && Below(x2, c, d as bv32)
    requires Below(y, a', y3) && Below(y3, b', y2) && Below(y2, c', d' as bv32)
    requires x == y
    ensures a == a' && b == b' && c == c' && d == d'
  {
    BelowInjective(x, a, x3, a', y3);
    BelowInjective(x3, b, x2, b', y2);
    BelowInjective(x2, c, d as bv32, c', d' as bv32);
    LastByte(d, d');
  }

  /** The two packs of different windows differ. */
  lemma PacksDiffer(a: seq<bv8>, b: seq<bv8>) returns (x: bv32, x3: bv32, x2: bv32, y: bv32, y3: bv32, y2: bv32)
    requires |a| == |b| == 4 && a != b
    ensures Below(x, a[0], x3) && Below(x3, a[1], x2) && Below(x2, a[2], a[3] as bv32)
    ensures Below(y, b[0], y3) && Below(y3, b[1], y2) && Below(y2, b[2], b[3] as bv32)
    ensures x != y
  {
    var a0, a1, a2, a3, b0, b1, b2, b3 := a[0], a[1], a[2], a[3], b[0], b[1], b[2], b[3];
    assert a == [a0, a1, a2, a3] && b == [b0, b1, b2, b3];
    x, x3, x2, y, y3, y2 := BytesDiffer(a0, a1, a2, a3, b0, b1, b2, b3);
  }

  lemma BytesDiffer(a: bv8, b: bv8, c: bv8, d: bv8, a': bv8, b': bv8, c': bv8, d': bv8)
    returns (x: bv32, x3: bv32, x2: bv32, y: bv32, y3: bv32, y2: bv32)
    requires a != a' || b != b' || c != c' || d != d'
    ensures Below(x, a, x3) && Below(x3, b, x2) && Below(x2, c, d as bv32)
    ensures Below(y, a', y3) && Below(y3, b', y2) && Below(y2, c', d' as bv32)
    ensures x != y
  {
    x, x3, x2 := Pack(a, b, c, d);
    y, y3, y2 := Pack(a', b', c', d');
    if x == y {
      PacksAgree(a, b, c, d, x, x3, x2, a', b', c', d', y, y3, y2);
    }
  }

  lemma FourDiffer(f: bv32 -> bv32, s: bv32, a: seq<bv8>, b: seq<bv8>)
    requires IsStep(f) && |a| == |b| == 4 && a != b
    ensures FeedAll(f, s, a) != FeedAll(f, s, b)
  {
    var x, x3, x2, y, y3, y2 := PacksDiffer(a, b);
    FourSteps(f, s, a, x, x3, x2);
    FourSteps(f, s, b, y, y3, y2);
    XorDiffers(s, x, y);
    PowerInjective(f, Xor(s, x), Xor(s, y), 32);
  }

  lemma {:induction false} FeedCat(f: bv32 -> bv32, s: bv32, a: seq<bv8>, b: seq<bv8>)
    ensures FeedAll(f, s, a + b) == FeedAll(f, FeedAll(f, s, a), b)
    decreases |b|
  {
    if b == [] {
      assert a + b == a;
    } else {
      assert (a + b)[..|a + b| - 1] == a + b[..|b| - 1];
      FeedCat(f, s, a, b[..|b| - 1]);
    }
  }

  /** The register never forgets a difference. */
  lemma {:induction false} SameFeed(f: bv32 -> bv32, x: bv32, y: bv32, data: seq<bv8>)
    requires IsStep(f) && x != y
    ensures FeedAll(f, x, data) != FeedAll(f, y, data)
    decreases |data|
  {
    if data != [] {
      var init, b := data[..|data| - 1], data[|data| - 1] as bv32;
      var x', y' := FeedAll(f, x, init), FeedAll(f, y, init);
      SameFeed(f, x, y, init);
      XorDiffers(b, x', y');
      PowerInjective(f, Xor(x', b), Xor(y', b), 8);
    }
  }

  lemma FedThrough(f: bv32 -> bv32, s: bv32, front: seq<bv8>, window: seq<bv8>, back: seq<bv8>)
    ensures FeedAll(f, s, front + window + back) == FeedAll(f, FeedAll(f, FeedAll(f, s, front), window), back)
  {
    FeedCat(f, s, front + window, back);
    FeedCat(f, s, front, window);
  }

  lemma PartsDiffer(f: bv32 -> bv32, s: bv32, front: seq<bv8>, v: seq<bv8>, w: seq<bv8>, back: seq<bv8>)
    requires IsStep(f) && |v| == |w| == 4 && v != w
    ensures FeedAll(f, s, front + v + back) != FeedAll(f, s, front + w + back)
  {
    var s1 := FeedAll(f, s, front);
    FedThrough(f, s, front, v, back);
    FedThrough(f, s, front, w, back);
    FourDiffer(f, s1, v, w);
    SameFeed(f, FeedAll(f, s1, v), FeedAll(f, s1, w), back);
  }

  lemma ThreeParts(a: seq<bv8>, i: nat)
    requires i + 4 <= |a|
    ensures a == a[..i] + a[i..i + 4] + a[i + 4..]
  {
  }

  lemma WindowDiffers(f: bv32 -> bv32, s: bv32, a: seq<bv8>, b: seq<bv8>, i: nat)
    requires IsStep(f) && |a| == |b| && i + 4 <= |a| && a != b
    requires forall k | 0 <= k < |a| && !(i <= k < i + 4) :: a[k] == b[k]
    ensures FeedAll(f, s, a) != FeedAll(f, s, b)
  {
    ThreeParts(a, i);
    ThreeParts(b, i);
    assert b[..i] == a[..i] && b[i + 4..] == a[i + 4..];
    PartsDiffer(f, s, a[..i], a[i..i + 4], b[i..i + 4], a[i + 4..]);
  }

  // ----- Sealed records -----

  /** The word that four stored bytes are, low byte first. */
  function Word(b: seq<bv8>): bv32
    requires |b| == 4
  {
    Above8(b[0], Above8(b[1], Above8(b[2], b[3] as bv32)))
  }

  function Above8(low: bv8, w: bv32): bv32 { (low as bv32) ^ (w << 8) }

  /** The last four bytes are the checksum of the rest. */
  predicate Checked(r: seq<bv8>) { |r| >= 4 && Word(r[|r| - 4..]) == Crc(r[..|r| - 4]) }

  /** A stored record `r`, whose checksum is at `at`, the offset of its `crc` field: its first field, the
      version, is 1, and the checksum is that of the bytes before it, interior padding included. The bytes
      after it are padding. */
  predicate Intact(r: seq<bv8>, at: nat) {
    4 <= at && at + 4 <= |r| && Word(r[..4]) == 1 && Checked(r[..at + 4])
  }

  lemma Above8Below(low: bv8, w: bv32)
    requires w < 0x100_0000
    ensures Below(Above8(low, w), low, w)
  {
  }

  lemma Above8Small(low: bv8, w: bv32)
    ensures w < 0x100 ==> Above8(low, w) < 0x1_0000
    ensures w < 0x1_0000 ==> Above8(low, w) < 0x100_0000
  {
  }

  lemma ByteSmall(b: bv8)
    ensures b as bv32 < 0x100
  {
  }

  lemma FedWord(f: bv32 -> bv32, s: bv32, b: seq<bv8>)
    requires Linear(f) && Shifting(f) && |b| == 4
    ensures FeedAll(f, s, b) == Power(f, Xor(s, Word(b)), 32)
  {
    var p2 := Above8(b[2], b[3] as bv32);
    var p3 := Above8(b[1], p2);
    ByteSmall(b[3]);
    Above8Small(b[2], b[3] as bv32);
    Above8Small(b[1], p2);
    Above8Below(b[2], b[3] as bv32);
    Above8Below(b[1], p2);
    Above8Below(b[0], p3);
    FourSteps(f, s, b, Word(b), p3, p2);
  }

  lemma XorNot(c: bv32, n: bv32)
    requires n == !c
    ensures Xor(c, n) == 0xFFFF_FFFF
  {
  }

  lemma ResidueIff(f: bv32 -> bv32, c: bv32, w: bv32, n: bv32)
    requires OneToOne(f) && Xor(c, n) == 0xFFFF_FFFF
    ensures w == n <==> Power(f, Xor(c, w), 32) == Power(f, 0xFFFF_FFFF, 32)
  {
    if w != n {
      XorDiffers(c, w, n);
      PowerInjective(f, Xor(c, w), 0xFFFF_FFFF, 32);
    }
  }

  lemma StoredResidue(f: bv32 -> bv32, s: bv32, body: seq<bv8>, tail: seq<bv8>, n: bv32)
    requires IsStep(f) && |tail| == 4 && Xor(FeedAll(f, s, body), n) == 0xFFFF_FFFF
    ensures Word(tail) == n <==> FeedAll(f, s, body + tail) == Power(f, 0xFFFF_FFFF, 32)
  {
    var c := FeedAll(f, s, body);
    FeedCat(f, s, body, tail);
    FedWord(f, c, tail);
    ResidueIff(f, c, Word(tail), n);
  }

  lemma CheckedIff(r: seq<bv8>)
    requires |r| >= 4
    ensures Checked(r) <==> FeedAll(Bit, 0xFFFF_FFFF, r) == Power(Bit, 0xFFFF_FFFF, 32)
  {
    var body, tail := r[..|r| - 4], r[|r| - 4..];
    assert r == body + tail;
    BitIsStep();
    XorNot(FeedAll(Bit, 0xFFFF_FFFF, body), Crc(body));
    StoredResidue(Bit, 0xFFFF_FFFF, body, tail, Crc(body));
  }

  /** A record is intact exactly if its version is 1 and all it stores up to and with the checksum leaves
      one fixed residue. */
  lemma IntactIff(r: seq<bv8>, at: nat)
    requires 4 <= at && at + 4 <= |r|
    ensures Intact(r, at)
            <==> Word(r[..4]) == 1 && FeedAll(Bit, 0xFFFF_FFFF, r[..at + 4]) == Power(Bit, 0xFFFF_FFFF, 32)
  {
    CheckedIff(r[..at + 4]);
  }

  lemma WindowIsFound(a: seq<bv8>, b: seq<bv8>, i: nat)
    requires Checked(a) && |b| == |a| && i + 4 <= |a| && a != b
    requires forall k | 0 <= k < |a| && !(i <= k < i + 4) :: a[k] == b[k]
    ensures !Checked(b)
  {
    BitIsStep();
    CheckedIff(a);
    CheckedIff(b);
    WindowDiffers(Bit, 0xFFFF_FFFF, a, b, i);
  }

  /** Corruption of any bits within four consecutive stored bytes of an intact record, in the body, in
      the checksum or across the two, is found. Only the padding after the checksum, which means nothing,
      may change unnoticed. */
  lemma CorruptionIsFound(a: seq<bv8>, b: seq<bv8>, at: nat, i: nat)
    requires Intact(a, at) && |b| == |a| && i + 4 <= at + 4
    requires forall k | 0 <= k < at + 4 && !(i <= k < i + 4) :: a[k] == b[k]
    ensures Intact(b, at) <==> a[..at + 4] == b[..at + 4]
  {
    if a[..at + 4] == b[..at + 4] {
      assert b[..4] == b[..at + 4][..4] && a[..4] == a[..at + 4][..4];
    } else {
      WindowIsFound(a[..at + 4], b[..at + 4], i);
    }
  }

  function Up(w: bv32): bv32 { w >> 8 }

  function Lo(w: bv32): bv32 { w & 0xFF }

  lemma Rejoins(w: bv32)
    ensures w == Lo(w) ^ (Up(w) << 8) && Lo(w) < 0x100 && Up(w) < 0x100_0000
  {
  }

  lemma UpSmall(w: bv32)
    requires w < 0x100_0000
    ensures Up(w) < 0x1_0000
  {
  }

  lemma UpSmaller(w: bv32)
    requires w < 0x1_0000
    ensures Up(w) < 0x100
  {
  }

  lemma FirstByte(w: bv32) returns (low: bv8, up: bv32)
    ensures w == Above8(low, up) && up == Up(w)
  {
    Rejoins(w);
    low := TopByte(Lo(w));
    up := Up(w);
  }

  lemma Checksum(body: seq<bv8>) returns (tail: seq<bv8>)
    ensures |tail| == 4 && Checked(body + tail)
  {
    var b0, w3 := FirstByte(Crc(body));
    var b1, w2 := FirstByte(w3);
    var b2, w1 := FirstByte(w2);
    Rejoins(Crc(body));
    UpSmall(w3);
    UpSmaller(w2);
    var b3 := TopByte(w1);
    tail := [b0, b1, b2, b3];
    var r := body + tail;
    assert r[..|r| - 4] == body && r[|r| - 4..] == tail;
  }

  /** Every body of version 1 can be sealed, whatever pads it. */
  lemma CanSeal(body: seq<bv8>, padding: seq<bv8>) returns (r: seq<bv8>)
    requires |body| >= 4 && Word(body[..4]) == 1
    ensures Intact(r, |body|) && |r| == |body| + 4 + |padding| && r[..|body|] == body && r[|body| + 4..] == padding
  {
    var tail := Checksum(body);
    r := body + tail + padding;
    assert r[..|body| + 4] == body + tail && r[..4] == body[..4];
  }

  lemma TopByte(w: bv32) returns (b: bv8)
    requires w < 0x100
    ensures b as bv32 == w
  {
    b := w as bv8;
  }
}
