/** `FirmwareUpdate` of components/controller/firmware_update.cpp: the state of one transfer. `Update`
    and its members say what each operation computes; the class keeps the fields. */
module FirmwareUpdates {
  const SLOT_BYTES := 0x30_0000
  const CHUNK_BYTES := 4096
  const TOTAL_MS := 180000
  const IDLE_MS := 30000

  newtype byte = x: int | 0 <= x < 256

  datatype UpdateState = Idle | Preparing | Receiving | Writing | Verifying | Rebooting | Failed

  predicate IsDigit(b: byte) { 48 <= b <= 57 }

  function SkipDigits(v: seq<byte>, i: nat, end: nat): (j: nat)
    requires i <= end <= |v|
    ensures i <= j <= end && (forall k | i <= k < j :: IsDigit(v[k])) && (j < end ==> !IsDigit(v[j]))
    decreases end - i
  {
    if i < end && IsDigit(v[i]) then SkipDigits(v, i + 1, end) else i
  }

  function Digit(b: byte): nat
    requires IsDigit(b)
  {
    b as int - 48
  }

  function Number(v: seq<byte>): nat
    requires forall k | 0 <= k < |v| :: IsDigit(v[k])
  {
    if v == [] then 0
    else
      var last := |v| - 1;
      assert IsDigit(v[last]);
      Number(v[..last]) * 10 + Digit(v[last])
  }

  /** A version this program can be followed by: 0.minor.patch, minor 2 or later. */
  predicate CompatibleVersion(v: seq<byte>)
    requires |v| == 32
  {
    && v[0] == 48 && v[1] == 46
    && var i := SkipDigits(v, 2, 8);
       && 2 < i && Number(v[2..i]) >= 2 && v[i] == 46 && IsDigit(v[i + 1])
       && var j := SkipDigits(v, i + 1, 32); j < 32 && v[j] == 0
  }

  const PROJECT: seq<byte> :=
    [116, 115, 108, 95, 115, 109, 97, 114, 116, 95, 99, 111, 110, 116, 97, 99, 116, 111, 114, 0]

  /** The start of an image of this project for this chip, of a version it can be followed by. */
  predicate Compatible(p: seq<byte>) {
    && |p| >= 288 && p[0] == 0xE9 && 1 <= p[1] <= 16 && p[12] == 9 && p[13] == 0
    && p[32] == 0x32 && p[33] == 0x54 && p[34] == 0xCD && p[35] == 0xAB
    && p[80..100] == PROJECT && CompatibleVersion(p[48..80])
  }

  datatype Update = Update(state: UpdateState, received: nat, total: nat, queued: nat, generation: nat,
                           started: int, progress: int)
  {
    predicate Active() { state != Idle && state != Failed }

    predicate Current(now: int, gen: nat) {
      && Active() && gen == generation && now >= progress && now >= started
      && now - started < TOTAL_MS && now - progress < IDLE_MS
    }

    function Begin(bytes: nat, gen: nat, now: int): (Update, bool) {
      if Active() || gen == 0 || bytes < 8192 || bytes > SLOT_BYTES || bytes % 4096 != 0 then (this, false)
      else (Update(Preparing, 0, bytes, 0, gen, now, now), true)
    }

    function Ready(now: int, gen: nat): (Update, bool) {
      if state != Preparing || !Current(now, gen) then (this, false)
      else (this.(state := Receiving, progress := now), true)
    }

    function Chunk(offset: nat, data: seq<byte>, now: int, gen: nat): (Update, bool) {
      if state != Receiving || !Current(now, gen) || offset != received || data == [] || |data| > CHUNK_BYTES
         || |data| > total - received || (received == 0 && !Compatible(data))
      then (this, false)
      else (this.(queued := |data|, state := Writing), true)
    }

    function Written(n: nat, now: int, gen: nat): (Update, bool) {
      if state != Writing || n != queued || !Current(now, gen) then (this, false)
      else (this.(received := received + n, queued := 0, state := Receiving, progress := now), true)
    }

    function Finish(now: int, gen: nat): (Update, bool) {
      if state != Receiving || received != total || !Current(now, gen) then (this, false)
      else (this.(state := Verifying), true)
    }

    function Verified(now: int, gen: nat): (Update, bool) {
      if state != Verifying || !Current(now, gen) then (this, false)
      else (this.(state := Rebooting, progress := now), true)
    }

    function Fail(): Update { this.(state := Failed, queued := 0) }

    predicate Valid() {
      && received + queued <= total && (state == Writing || queued == 0)
      && (Active() ==> 8192 <= total <= SLOT_BYTES && total % 4096 == 0 && generation != 0)
      && (state == Verifying || state == Rebooting ==> received == total)
      && (state == Preparing ==> received == 0)
    }
  }

  const NEW_UPDATE := Update(Idle, 0, 0, 0, 0, 0, 0)

  /** What every operation keeps, and that none but `begin` changes what a transfer is of. */
  lemma OperationsKeep(u: Update, n: nat, data: seq<byte>, gen: nat, now: int, v: Update)
    requires u.Valid()
    requires v in {u.Begin(n, gen, now).0, u.Ready(now, gen).0, u.Chunk(n, data, now, gen).0, u.Written(n, now, gen).0,
                   u.Finish(now, gen).0, u.Verified(now, gen).0, u.Fail()}
    ensures v.Valid()
    ensures u.Active() ==> v.total == u.total && v.generation == u.generation && v.started == u.started
    ensures u.Active() ==> u.received <= v.received <= u.received + u.queued
    ensures u.state == Failed && v.Active() ==> v.state == Preparing
  {
  }

  class FirmwareUpdate {
    var state: UpdateState
    var received: nat
    var total: nat
    var queued: nat
    var generation: nat
    var started: int
    var progress: int

    function U(): Update
      reads this
    {
      Update(state, received, total, queued, generation, started, progress)
    }

    constructor ()
      ensures U() == NEW_UPDATE
    {
      state, received, total, queued, generation, started, progress := Idle, 0, 0, 0, 0, 0, 0;
    }

    method Begin(bytes: nat, gen: nat, now: int) returns (ok: bool)
      modifies this
      ensures (U(), ok) == old(U()).Begin(bytes, gen, now)
    {
      if (state != Idle && state != Failed) || gen == 0 || bytes < 8192 || bytes > SLOT_BYTES || bytes % 4096 != 0 {
        return false;
      }
      total, received, queued, generation, started, progress := bytes, 0, 0, gen, now, now;
      state := Preparing;
      ok := true;
    }

    method Ready(now: int, gen: nat) returns (ok: bool)
      modifies this
      ensures (U(), ok) == old(U()).Ready(now, gen)
    {
      if state != Preparing || !U().Current(now, gen) {
        return false;
      }
      state, progress := Receiving, now;
      ok := true;
    }

    method Chunk(offset: nat, data: seq<byte>, now: int, gen: nat) returns (ok: bool)
      modifies this
      ensures (U(), ok) == old(U()).Chunk(offset, data, now, gen)
    {
      if state != Receiving || !U().Current(now, gen) || offset != received || data == [] || |data| > CHUNK_BYTES
         || |data| > total - received || (received == 0 && !Compatible(data)) {
        return false;
      }
      queued, state := |data|, Writing;
      ok := true;
    }

    method Written(n: nat, now: int, gen: nat) returns (ok: bool)
      modifies this
      ensures (U(), ok) == old(U()).Written(n, now, gen)
    {
      if state != Writing || n != queued || !U().Current(now, gen) {
        return false;
      }
      received, queued, state, progress := received + n, 0, Receiving, now;
      ok := true;
    }

    method Finish(now: int, gen: nat) returns (ok: bool)
      modifies this
      ensures (U(), ok) == old(U()).Finish(now, gen)
    {
      if state != Receiving || received != total || !U().Current(now, gen) {
        return false;
      }
      state := Verifying;
      ok := true;
    }

    method Verified(now: int, gen: nat) returns (ok: bool)
      modifies this
      ensures (U(), ok) == old(U()).Verified(now, gen)
    {
      if state != Verifying || !U().Current(now, gen) {
        return false;
      }
      state, progress := Rebooting, now;
      ok := true;
    }

    method Fail()
      modifies this
      ensures U() == old(U()).Fail()
    {
      state, queued := Failed, 0;
    }
  }

  /** The version check, digit by digit. */
  method IsCompatibleVersion(v: seq<byte>) returns (ok: bool)
    requires |v| == 32
    ensures ok <==> CompatibleVersion(v)
  {
    if v[0] != 48 || v[1] != 46 {
      return false;
    }
    var minor, i := 0, 2;
    if !IsDigit(v[2]) {
      return false;
    }
    while i < 8 && IsDigit(v[i])
      invariant 2 <= i <= 8 && SkipDigits(v, i, 8) == SkipDigits(v, 2, 8)
      invariant (forall k | 2 <= k < i :: IsDigit(v[k])) && minor == Number(v[2..i])
    {
      assert v[2..i + 1][..i + 1 - 2 - 1] == v[2..i];
      minor := minor * 10 + Digit(v[i]);
      i := i + 1;
    }
    if minor < 2 || v[i] != 46 {
      return false;
    }
    i := i + 1;
    if !IsDigit(v[i]) {
      return false;
    }
    ghost var patch := i;
    while i < 32 && IsDigit(v[i])
      invariant patch <= i <= 32 && SkipDigits(v, i, 32) == SkipDigits(v, patch, 32)
    {
      i := i + 1;
    }
    ok := i < 32 && v[i] == 0;
  }
}
