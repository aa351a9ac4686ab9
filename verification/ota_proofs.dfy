/** What every run of the update system keeps. */
module OtaProofs {
  import opened FirmwareUpdates
  import opened OtaSystem

  /** Whether the transfer's own state, or the worker's place, says that a chunk waits in the buffer. */
  predicate HasChunk(s: Sys) { s.pc.InWrite() || (s.transfer.state == Writing && !s.pc.Dying()) }

  predicate HasAll(s: Sys) { s.pc.InVerify() || (s.transfer.state == Verifying && !s.pc.Dying() && !s.pc.Note?) }

  predicate Filling(u: UpdateState) { u == Preparing || u == Receiving || u == Writing }

  predicate UnderWay(u: UpdateState) { u == Receiving || u == Writing || u == Verifying || u == Rebooting }

  /** What the worker has in hand against the state of the transfer. */
  predicate Flow(s: Sys) {
    && (s.pc.InWrite() ==> s.transfer.state == Writing || s.transfer.state == Failed)
    && (s.pc == Check(Preparing) || s.pc.Prepare? || s.pc.Grant? ==> s.transfer.state == Preparing || s.transfer.state == Failed)
    && (s.pc.InVerify() || s.pc.Select? || s.pc.Note? ==> s.transfer.state == Verifying || s.transfer.state == Failed)
    && (s.pc.InReboot() ==> s.transfer.state == Rebooting || s.transfer.state == Failed)
    && (s.pc.Release? ==> !s.transfer.Active())
    && (s.pc.Check? ==> s.pc.seen != Idle && s.pc.seen != Failed)
    && (s.busy || s.pc.Top? || s.pc.Look? || s.pc.Unused? || s.pc.Gone?)
  }

  predicate Rests(s: Sys) { !s.transfer.Active() && !s.flash.handleOpen && !s.flash.bootSelected }

  predicate MayWrite(s: Sys) {
    s.flash.handleOpen || HasChunk(s) || HasAll(s) || s.pc.Select? || Filling(s.transfer.state)
  }

  predicate HasSelected(s: Sys) {
    s.pc.Note? || s.pc.InReboot() || (s.transfer.state == Rebooting && !s.pc.Dying())
  }

  /** Who may be writing the other slot, and which slot is selected. */
  predicate Slots(s: Sys) {
    && (!s.busy ==> Rests(s))
    && (!s.flash.bootSelected ==> !s.flash.selectedNext || s.fault)
    && (s.asked.Asked? ==> !s.busy && !s.flash.selectedNext)
    && (MayWrite(s) ==> !s.flash.bootSelected && !s.flash.selectedNext)
    && (HasSelected(s) ==> s.flash.bootSelected && s.flash.selectedNext)
    && (s.pc.Permit? || s.pc.Select? || s.pc.Note? || s.pc.Restore? || s.pc.Mark? || s.pc.Release? ==> !s.flash.handleOpen)
    && (s.pc.Mark? || s.pc.Release? ==> !s.flash.bootSelected)
    && (s.boot.pending || s.boot.checked)
    && (s.boot.pending ==> Testing(s))
  }

  /** A program that has not confirmed itself takes no update. */
  predicate Testing(s: Sys) {
    && Rests(s) && s.busy && s.transfer.state == Idle && !s.flash.selectedNext
    && (s.pc.Top? || s.pc.Look? || s.pc.Unused? || s.pc.Gone?)
  }

  /** Where the accepted bytes are. */
  predicate Bytes(s: Sys) {
    var all := Joined(s.log.pieces);
    && s.transfer.Valid()
    && (s.transfer.state == Preparing ==> s.log.pieces == [] && s.log.stored == [] && !s.flash.handleOpen)
    && (s.transfer.state == Receiving ==> all == s.log.stored && |all| == s.transfer.received)
    && (s.transfer.state == Receiving && !s.pc.Dying() ==> if s.flash.handleOpen then s.flash.next == all else all == [])
    && (HasChunk(s) ==> ChunkPlaces(s, all))
    && (s.transfer.state == Writing ==> s.transfer.queued == |s.buffer|)
    && (HasAll(s) ==> s.transfer.received == s.transfer.total == |all| && s.flash.next == all)
  }

  predicate ChunkPlaces(s: Sys, all: seq<byte>) {
    && all == s.log.stored + s.buffer && |s.log.stored| == s.transfer.received
    && (s.pc.Recheck? || s.pc.Write? || s.pc.Record? ==> s.flash.handleOpen)
    && if s.pc.Record? then s.flash.next == all else if s.flash.handleOpen then s.flash.next == s.log.stored else s.log.stored == []
  }

  predicate Sound(pieces: seq<Piece>) {
    Contiguous(pieces) && (pieces != [] ==> Compatible(Joined(pieces)))
  }

  /** The image the device came with, or one a transfer brought. */
  predicate Known(factory: seq<byte>, approvals: seq<Approval>, image: seq<byte>) {
    image == factory || exists i | 0 <= i < |approvals| :: approvals[i].image == image
  }

  predicate AllGood(approvals: seq<Approval>) { forall i | 0 <= i < |approvals| :: approvals[i].Good() }

  predicate Selectable(s: Sys) { s.flash.selectedNext || s.flash.bootSelected || s.pc.Select? || (s.boot.pending && s.boot.firstRun) }

  predicate Safe(s: Sys) {
    && Known(s.log.factory, s.log.approvals, s.flash.running) && AllGood(s.log.approvals)
    && (Selectable(s) ==> Known(s.log.factory, s.log.approvals, s.flash.next))
  }

  /** From the moment the relay was seen off and no request in flight, no request starts. */
  predicate Calm(s: Sys) {
    && (s.flash.handleOpen || HasChunk(s) || s.pc.Grant? || UnderWay(s.transfer.state)
        ==> s.log.quiet)
    && (s.log.quiet && s.busy ==> !s.fleet.InFlight?)
  }

  predicate Places(s: Sys) { Flow(s) && Slots(s) && Calm(s) }

  predicate Inv(s: Sys) { Places(s) && Bytes(s) && Sound(s.log.pieces) && Safe(s) }

  // ----- Sequence facts -----

  lemma JoinedOne(pieces: seq<Piece>, p: Piece)
    ensures Joined(pieces + [p]) == Joined(pieces) + p.data
    ensures Contiguous(pieces) && p.offset == |Joined(pieces)| ==> Contiguous(pieces + [p])
  {
    var more := pieces + [p];
    assert more[..|pieces|] == pieces;
    if Contiguous(pieces) && p.offset == |Joined(pieces)| {
      forall i | 0 <= i < |more| ensures more[i].offset == |Joined(more[..i])| {
        if i < |pieces| {
          assert more[..i] == pieces[..i];
        }
      }
    }
  }

  lemma CompatibleGrows(a: seq<byte>, b: seq<byte>)
    requires Compatible(a)
    ensures Compatible(a + b)
  {
    assert (a + b)[80..100] == a[80..100] && (a + b)[48..80] == a[48..80];
  }

  // ----- Boot -----

  lemma BootedKeeps(s: Sys, chosen: seq<byte>, other: seq<byte>, first: bool, pending: bool, usable: bool)
    requires AllGood(s.log.approvals) && Known(s.log.factory, s.log.approvals, chosen)
    requires first && pending ==> Known(s.log.factory, s.log.approvals, other)
    ensures Inv(s.Booted(chosen, other, first, pending, usable))
  {
  }

  lemma RolledBackKeeps(s: Sys, usable: bool)
    requires Inv(s) && s.boot.pending
    ensures Inv(s.RolledBack(usable)) && s.RolledBack(usable).log.factory == s.log.factory
  {
    if s.boot.firstRun {
      BootedKeeps(s, s.flash.next, s.flash.running, false, false, usable);
    }
  }

  lemma ResetKeeps(s: Sys, b: BootInfo)
    requires Inv(s)
    ensures Inv(s.Reset(b)) && s.Reset(b).log.factory == s.log.factory
  {
    if s.boot.pending {
      RolledBackKeeps(s, b.available);
    } else if s.flash.selectedNext {
      BootedKeeps(s, s.flash.next, s.flash.running, b.pending, b.pending, b.available);
    } else {
      BootedKeeps(s, s.flash.running, s.flash.next, false, b.pending, b.available);
    }
  }

  lemma TestingKeeps(s: Sys, at: int, fault: bool, checked: bool)
    requires Inv(s) && s.pc.Top? && (s.fault ==> fault) && (s.boot.checked ==> checked)
    ensures Inv(s.(boot := s.boot.(acceptedAt := at, checked := checked), fault := fault, pc := Look))
  {
    var t := s.(boot := s.boot.(acceptedAt := at, checked := checked), fault := fault, pc := Look);
    assert Leaves(s, t);
    LeavesSafe(s, t);
  }

  lemma ConfirmedKeeps(s: Sys, at: int)
    requires Inv(s) && s.pc.Top? && s.boot.pending
    ensures Inv(s.(boot := s.boot.(acceptedAt := at, checked := true, pending := false), busy := false, pc := Look))
  {
    var t := s.(boot := s.boot.(acceptedAt := at, checked := true, pending := false), busy := false, pc := Look);
    assert Leaves(s, t);
    LeavesSafe(s, t);
  }

  lemma CheckBootKeeps(s: Sys, a: Answer)
    requires Inv(s) && s.pc.Top?
    ensures Inv(CheckBoot(s, a)) && CheckBoot(s, a).log.factory == s.log.factory
  {
    var at := if s.boot.acceptedAt == 0 then a.now else s.boot.acceptedAt;
    if !s.boot.pending || s.boot.checked {
      TestingKeeps(s, s.boot.acceptedAt, s.fault, s.boot.checked);
    } else if s.fault || a.now > SELF_TEST_MS {
      RolledBackKeeps(s, a.boot.available);
      TestingKeeps(s, s.boot.acceptedAt, true, true);
    } else if !a.healthy {
      TestingKeeps(s, s.boot.acceptedAt, s.fault, s.boot.checked);
    } else if a.now - at < CONFIRM_MS {
      TestingKeeps(s, at, s.fault, s.boot.checked);
    } else {
      TestingKeeps(s, at, true, s.boot.checked);
      ConfirmedKeeps(s, at);
    }
  }

  // ----- Which slot, and who may write it -----

  lemma LookPlaces(s: Sys, a: Answer)
    requires Places(s) && (s.pc.Look? || s.pc.Unused? || s.pc.Check?)
    ensures Places(LookStep(s, a))
  {
  }

  lemma DuePlaces(s: Sys, a: Answer)
    requires Places(s) && s.pc.Waiting()
    ensures Places(SettleStep(s, a))
  {
  }

  lemma PreparePlaces(s: Sys, a: Answer)
    requires Places(s) && s.pc.Prepare?
    ensures Places(PrepareStep(s, a))
  {
  }

  lemma GrantPlaces(s: Sys, a: Answer)
    requires Places(s) && s.pc.Grant?
    ensures Places(GrantStep(s, a))
  {
  }

  lemma WritePlaces(s: Sys, a: Answer)
    requires Places(s) && s.pc.OnFlash()
    ensures Places(WriteStep(s, a))
  {
  }

  lemma VerifyPlaces(s: Sys, a: Answer)
    requires Places(s) && s.pc.OnImage()
    ensures Places(VerifyStep(s, a))
  {
  }

  lemma FailPlaces(s: Sys, a: Answer)
    requires Places(s) && s.pc.Dying()
    ensures Places(FailStep(s, a))
  {
  }

  lemma CallPlaces(s: Sys, op: Op)
    requires Places(s)
    ensures Places(CallStep(s, op))
  {
  }

  // ----- Where the bytes are -----

  lemma LookBytes(s: Sys, a: Answer)
    requires Places(s) && Bytes(s) && (s.pc.Look? || s.pc.Unused? || s.pc.Check?)
    ensures Bytes(LookStep(s, a))
  {
  }

  lemma DueBytes(s: Sys, a: Answer)
    requires Places(s) && Bytes(s) && s.pc.Waiting()
    ensures Bytes(SettleStep(s, a))
  {
  }

  lemma PrepareBytes(s: Sys, a: Answer)
    requires Places(s) && Bytes(s) && s.pc.Prepare?
    ensures Bytes(PrepareStep(s, a))
  {
  }

  lemma GrantBytes(s: Sys, a: Answer)
    requires Places(s) && Bytes(s) && s.pc.Grant?
    ensures Bytes(GrantStep(s, a))
  {
  }

  lemma RecordBytes(s: Sys, a: Answer)
    requires Places(s) && Bytes(s) && s.pc.Record?
    ensures Bytes(WriteStep(s, a))
  {
  }

  lemma WriteBytes(s: Sys, a: Answer)
    requires Places(s) && Bytes(s) && s.pc.OnFlash()
    ensures Bytes(WriteStep(s, a))
  {
    if s.pc.Record? {
      RecordBytes(s, a);
    }
  }

  lemma NoteBytes(s: Sys, a: Answer)
    requires Places(s) && Bytes(s) && s.pc.Note?
    ensures Bytes(VerifyStep(s, a))
  {
  }

  lemma VerifyBytes(s: Sys, a: Answer)
    requires Places(s) && Bytes(s) && s.pc.OnImage()
    ensures Bytes(VerifyStep(s, a))
  {
    if s.pc.Note? {
      NoteBytes(s, a);
    }
  }

  lemma MarkBytes(s: Sys, a: Answer)
    requires Places(s) && Bytes(s) && s.pc.Mark?
    ensures Bytes(FailStep(s, a))
  {
  }

  lemma FailBytes(s: Sys, a: Answer)
    requires Places(s) && Bytes(s) && s.pc.Dying()
    ensures Bytes(FailStep(s, a))
  {
    if s.pc.Mark? {
      MarkBytes(s, a);
    }
  }

  lemma BeginBytes(s: Sys, now: int, id: string)
    requires Places(s) && Bytes(s) && s.asked.Asked?
    ensures Bytes(BeginLockStep(s, now, id))
  {
  }

  lemma ChunkBytes(s: Sys, id: string, offset: nat, data: seq<byte>, gen: nat, now: int)
    requires Places(s) && Bytes(s)
    ensures Bytes(SendChunkStep(s, id, offset, data, gen, now))
  {
    JoinedOne(s.log.pieces, Piece(offset, data));
  }

  lemma SendBytes(s: Sys, id: string, gen: nat, now: int)
    requires Places(s) && Bytes(s)
    ensures Bytes(SendFinishStep(s, id, gen, now)) && Bytes(SendAbortStep(s, id))
  {
  }

  lemma ChunkSound(s: Sys, id: string, offset: nat, data: seq<byte>, gen: nat, now: int)
    requires Bytes(s) && Sound(s.log.pieces)
    ensures Sound(SendChunkStep(s, id, offset, data, gen, now).log.pieces)
  {
    var all := Joined(s.log.pieces);
    JoinedOne(s.log.pieces, Piece(offset, data));
    if s.log.pieces == [] {
      assert all + data == data;
    } else {
      CompatibleGrows(all, data);
    }
  }

  // ----- Which images are known -----

  /** A step that brings no image and makes none selectable. */
  predicate Leaves(s: Sys, t: Sys) {
    && t.log.factory == s.log.factory && t.log.approvals == s.log.approvals && t.flash.running == s.flash.running
    && (Selectable(t) ==> Selectable(s) && t.flash.next == s.flash.next)
  }

  lemma LeavesSafe(s: Sys, t: Sys)
    requires Safe(s) && Leaves(s, t)
    ensures Safe(t)
  {
  }

  lemma WriteLeaves(s: Sys, a: Answer)
    requires Places(s) && s.pc.OnFlash()
    ensures Leaves(s, WriteStep(s, a))
  {
  }

  lemma VerifyLeaves(s: Sys, a: Answer)
    requires Places(s) && (s.pc.End? || s.pc.Select? || s.pc.Note?)
    ensures Leaves(s, VerifyStep(s, a))
  {
  }

  lemma FailLeaves(s: Sys, a: Answer)
    requires Places(s) && s.pc.Dying()
    ensures Leaves(s, FailStep(s, a))
  {
  }

  lemma LookLeaves(s: Sys, a: Answer)
    requires Places(s) && (s.pc.Look? || s.pc.Unused? || s.pc.Check?)
    ensures Leaves(s, LookStep(s, a))
  {
  }

  lemma SettleLeaves(s: Sys, a: Answer)
    requires Places(s) && s.pc.Waiting()
    ensures Leaves(s, SettleStep(s, a))
  {
  }

  lemma GrantLeaves(s: Sys, a: Answer)
    requires Places(s) && (s.pc.Prepare? || s.pc.Grant?)
    ensures Leaves(s, if s.pc.Prepare? then PrepareStep(s, a) else GrantStep(s, a))
  {
  }

  lemma WorkerLeaves(s: Sys, a: Answer)
    requires Places(s) && !s.pc.Top? && !s.pc.Permit? && !s.pc.Restart? && !s.pc.Gone?
    ensures Leaves(s, WorkerStep(s, a))
  {
    if s.pc.OnFlash() {
      WriteLeaves(s, a);
    } else if s.pc.OnImage() {
      VerifyLeaves(s, a);
    } else if s.pc.Dying() {
      FailLeaves(s, a);
    } else if s.pc.Waiting() {
      SettleLeaves(s, a);
    } else if s.pc.Prepare? || s.pc.Grant? {
      GrantLeaves(s, a);
    } else {
      LookLeaves(s, a);
    }
  }

  lemma CallLeaves(s: Sys, op: Op)
    requires Places(s)
    ensures Leaves(s, CallStep(s, op))
  {
  }

  lemma OneMoreKnown(factory: seq<byte>, approvals: seq<Approval>, a: Approval, image: seq<byte>)
    requires AllGood(approvals) && a.Good()
    ensures AllGood(approvals + [a]) && Known(factory, approvals + [a], a.image)
    ensures Known(factory, approvals, image) ==> Known(factory, approvals + [a], image)
  {
    var more := approvals + [a];
    assert more[|approvals|] == a;
    if image != factory && Known(factory, approvals, image) {
      var i :| 0 <= i < |approvals| && approvals[i].image == image;
      assert more[i].image == image;
    }
  }

  /** What the last check has seen makes a good approval. */
  lemma PermitIsGood(s: Sys, a: Answer)
    requires Bytes(s) && Sound(s.log.pieces) && s.pc.Permit? && s.Current(a)
    requires s.transfer.state == Verifying || s.transfer.state == Failed
    ensures Approval(s.flash.next, s.log.pieces, s.transfer, a.control, a.now).Good()
  {
    assert s.log.pieces == [] ==> Joined(s.log.pieces) == [];
  }

  lemma PermitSafe(s: Sys, a: Answer)
    requires Inv(s) && s.pc.Permit?
    ensures Safe(VerifyStep(s, a))
  {
    var last := Approval(s.flash.next, s.log.pieces, s.transfer, a.control, a.now);
    if s.Current(a) {
      PermitIsGood(s, a);
      OneMoreKnown(s.log.factory, s.log.approvals, last, s.flash.running);
    }
  }

  // ----- Every step -----

  lemma CallingMoves(s: Sys, a: Answer) returns (t: Sys)
    requires Places(s) && Bytes(s) && (s.pc.OnFlash() || s.pc.OnImage() || s.pc.Dying())
    ensures t == WorkerStep(s, a) && Places(t) && Bytes(t) && t.log.pieces == s.log.pieces
  {
    if s.pc.Dying() {
      t := FailStep(s, a);
      FailPlaces(s, a);
      FailBytes(s, a);
    } else if s.pc.OnFlash() {
      t := WriteStep(s, a);
      WritePlaces(s, a);
      WriteBytes(s, a);
    } else {
      t := VerifyStep(s, a);
      VerifyPlaces(s, a);
      VerifyBytes(s, a);
    }
  }

  lemma WorkerMoves(s: Sys, a: Answer) returns (t: Sys)
    requires Places(s) && Bytes(s) && !s.pc.Top? && !s.pc.Restart? && !s.pc.Gone?
    ensures t == WorkerStep(s, a) && Places(t) && Bytes(t) && t.log.pieces == s.log.pieces
  {
    if s.pc.OnFlash() || s.pc.OnImage() || s.pc.Dying() {
      t := CallingMoves(s, a);
    } else if s.pc.Prepare? {
      t := PrepareStep(s, a);
      PreparePlaces(s, a);
      PrepareBytes(s, a);
    } else if s.pc.Grant? {
      t := GrantStep(s, a);
      GrantPlaces(s, a);
      GrantBytes(s, a);
    } else if s.pc.Waiting() {
      t := SettleStep(s, a);
      DuePlaces(s, a);
      DueBytes(s, a);
    } else {
      t := LookStep(s, a);
      LookPlaces(s, a);
      LookBytes(s, a);
    }
  }

  lemma WorkerKeeps(s: Sys, a: Answer) returns (t: Sys)
    requires Inv(s) && !s.pc.Top? && !s.pc.Permit? && !s.pc.Restart? && !s.pc.Gone?
    ensures t == WorkerStep(s, a) && Inv(t) && t.log.factory == s.log.factory
  {
    t := WorkerMoves(s, a);
    WorkerLeaves(s, a);
    LeavesSafe(s, t);
  }

  lemma PermitKeeps(s: Sys, a: Answer) returns (t: Sys)
    requires Inv(s) && s.pc.Permit?
    ensures t == WorkerStep(s, a) && Inv(t) && t.log.factory == s.log.factory
  {
    t := WorkerMoves(s, a);
    PermitSafe(s, a);
  }

  lemma FlagBytes(s: Sys, op: Op)
    requires Bytes(s) && Sound(s.log.pieces)
    requires op.BeginRead? || op.RaiseFault? || op.FleetRaise? || op.FleetRead? || op.FleetDone?
    ensures Bytes(CallStep(s, op)) && Sound(CallStep(s, op).log.pieces)
  {
  }

  lemma CallMoves(s: Sys, op: Op) returns (t: Sys)
    requires Inv(s)
    ensures t == CallStep(s, op) && Bytes(t) && Sound(t.log.pieces)
  {
    match op
    case BeginLock(now, id) =>
      if s.asked.Asked? {
        t := BeginLockStep(s, now, id);
        BeginBytes(s, now, id);
      } else {
        t := s;
      }
    case SendChunk(id, offset, data, gen, now) =>
      t := if s.asked.NoRequest? then SendChunkStep(s, id, offset, data, gen, now) else s;
      ChunkBytes(s, id, offset, data, gen, now);
      ChunkSound(s, id, offset, data, gen, now);
    case SendFinish(id, gen, now) =>
      t := if s.asked.NoRequest? then SendFinishStep(s, id, gen, now) else s;
      SendBytes(s, id, gen, now);
    case SendAbort(id) =>
      t := if s.asked.NoRequest? then SendAbortStep(s, id) else s;
      SendBytes(s, id, 0, 0);
    case Worker(_) => t := s;
    case Crash(_) => t := s;
    case _ =>
      t := CallStep(s, op);
      FlagBytes(s, op);
  }

  lemma CallKeeps(s: Sys, op: Op) returns (t: Sys)
    requires Inv(s)
    ensures t == CallStep(s, op) && Inv(t) && t.log.factory == s.log.factory
  {
    t := CallMoves(s, op);
    CallPlaces(s, op);
    CallLeaves(s, op);
    LeavesSafe(s, t);
  }

  lemma TopKeeps(s: Sys, a: Answer) returns (t: Sys)
    requires Inv(s) && (s.pc.Top? || s.pc.Restart?)
    ensures t == WorkerStep(s, a) && Inv(t) && t.log.factory == s.log.factory
  {
    t := WorkerStep(s, a);
    if s.pc.Top? {
      CheckBootKeeps(s, a);
    } else {
      ResetKeeps(s, a.boot);
    }
  }

  lemma StepKeeps(s: Sys, op: Op) returns (t: Sys)
    requires Inv(s)
    ensures t == Step(s, op) && Inv(t) && t.log.factory == s.log.factory
  {
    if s.pc.Gone? {
      t := s;
    } else if op.Crash? {
      t := s.Reset(op.b);
      ResetKeeps(s, op.b);
    } else if !op.Worker? {
      t := CallKeeps(s, op);
    } else if s.pc.Top? || s.pc.Restart? {
      t := TopKeeps(s, op.a);
    } else if s.pc.Permit? {
      t := PermitKeeps(s, op.a);
    } else {
      t := WorkerKeeps(s, op.a);
    }
  }

  lemma FirstBootKeeps(image: seq<byte>, other: seq<byte>, b: BootInfo)
    ensures Inv(FirstBoot(image, other, b))
  {
  }

  lemma {:induction false} RunKeeps(s: Sys, ops: seq<Op>)
    requires Inv(s)
    ensures Inv(Run(s, ops)) && Run(s, ops).log.factory == s.log.factory
    decreases |ops|
  {
    if ops != [] {
      var t := StepKeeps(s, ops[0]);
      RunKeeps(t, ops[1..]);
    }
  }
}
